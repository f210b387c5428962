/** The banner upload screen (`BannerofertasComponent`): one banner file
    with its guard and result messages, and the carousel's three file slots
    with their previews, which are set, cleared, counted, uploaded together
    and reset. */
module BannerOfertas {
  import opened Base
  import opened Texto

  /** A file picked in an `<input type="file">`. */
  datatype Fichero = Fichero(nombre: string)

  /** The form data of one upload: the file under `image` and the kind under `tipo`. */
  datatype Subida = Subida(imagen: Fichero, tipo: string)

  const SLOTS: nat := 3
  const TIPO_PRINCIPAL := "principal"
  const TIPO_CARRUSEL := "carrusel"
  const SIN_IMAGEN := "\U{274C} Por favor selecciona una imagen."
  const SIN_IMAGENES := "\U{274C} Por favor selecciona al menos una imagen."
  const SUBIENDO := "\U{23F3} Subiendo im\U{00E1}genes..."
  const PREFIJO_EXITO := "\U{2705} "
  const PREFIJO_AVISO := "\U{26A0}\U{FE0F} "

  predicate Ocupado(f: Option<Fichero>) {
    f.Some?
  }

  /** `carruselFiles.filter(file => file !== null)`: the chosen files in slot order. */
  function Presentes(s: seq<Option<Fichero>>): (r: seq<Fichero>)
    ensures |r| == Count(s, Ocupado)
    ensures forall f :: f in r <==> Some(f) in s
    decreases |s|
  {
    if s == [] then []
    else
      var resto := Presentes(s[1..]);
      assert s == [s[0]] + s[1..];
      if s[0].Some? then [s[0].value] + resto else resto
  }

  /** The files come out in slot order: a slot added after the others
      contributes its file, if any, after theirs. */
  lemma {:induction false} PresentesEnOrden(s: seq<Option<Fichero>>, x: Option<Fichero>)
    ensures Presentes(s + [x]) == Presentes(s) + (if x.Some? then [x.value] else [])
    decreases |s|
  {
    if s == [] {
      assert ([] + [x])[1..] == [];
    } else {
      assert (s + [x])[1..] == s[1..] + [x];
      PresentesEnOrden(s[1..], x);
    }
  }

  /** Counting occupied slots: at most one per slot, none exactly when every
      slot is empty, and all of them exactly when every slot is filled. */
  lemma {:induction false} ContarOcupados(s: seq<Option<Fichero>>)
    ensures Count(s, Ocupado) <= |s|
    ensures Count(s, Ocupado) == 0 <==> forall i :: 0 <= i < |s| ==> s[i].None?
    ensures Count(s, Ocupado) == |s| <==> forall i :: 0 <= i < |s| ==> s[i].Some?
    decreases |s|
  {
    if s != [] {
      ContarOcupados(s[1..]);
      assert forall i :: 1 <= i < |s| ==> s[i] == s[1..][i - 1];
    }
  }

  /** Emptying a slot lowers the count by one when it held a file, and
      filling one raises it by one when it was empty. */
  lemma CambiarSlot(s: seq<Option<Fichero>>, i: nat, x: Option<Fichero>)
    requires i < |s|
    ensures Count(s[i := x], Ocupado) + (if s[i].Some? then 1 else 0)
         == Count(s, Ocupado) + (if x.Some? then 1 else 0)
  {
    CountUpdate(s, i, x, Ocupado);
  }

  const EXITOSAS := " exitosas, "
  const SUBIDAS_AL_CARRUSEL := " " + "imagen(es) subidas correctamente al carrusel."

  /** The message of `finalizarCargaCarrusel`: the success text when nothing
      failed, the mixed text otherwise. Either one carries the number of
      uploaded images right after its prefix, ended by a space; the mixed
      text then carries the number of failures after " exitosas, ". */
  function MensajeFinal(exitosas: nat, fallidas: nat): (r: string)
    ensures fallidas == 0 ==> StartsWith(r, PREFIJO_EXITO)
    ensures fallidas != 0 ==> StartsWith(r, PREFIJO_AVISO)
    ensures StartsWith(r, PREFIJO_EXITO) != StartsWith(r, PREFIJO_AVISO)
    ensures
      var n := NatToString(exitosas);
      var k := if fallidas == 0 then |PREFIJO_EXITO| else |PREFIJO_AVISO|;
      k + |n| < |r| && r[k..k + |n|] == n && r[k + |n|] == ' '
    ensures fallidas != 0 ==>
      var n := NatToString(exitosas);
      var m := NatToString(fallidas);
      var k := |PREFIJO_AVISO| + |n|;
      && k + |EXITOSAS| + |m| < |r|
      && r[k..k + |EXITOSAS|] == EXITOSAS
      && r[k + |EXITOSAS|..k + |EXITOSAS| + |m|] == m
      && r[k + |EXITOSAS| + |m|] == ' '
  {
    var n := NatToString(exitosas);
    if fallidas == 0 then
      Pieza(PREFIJO_EXITO, n, SUBIDAS_AL_CARRUSEL);
      assert PREFIJO_EXITO[0] != PREFIJO_AVISO[0];
      PREFIJO_EXITO + n + SUBIDAS_AL_CARRUSEL
    else
      var m := NatToString(fallidas);
      var cola := m + " fallidas.";
      Pieza(PREFIJO_AVISO, n, EXITOSAS + cola);
      Pieza(PREFIJO_AVISO + n, EXITOSAS, cola);
      Pieza(PREFIJO_AVISO + n + EXITOSAS, m, " fallidas.");
      assert PREFIJO_EXITO[0] != PREFIJO_AVISO[0];
      assert PREFIJO_AVISO + n + (EXITOSAS + cola) == PREFIJO_AVISO + n + EXITOSAS + cola
        == PREFIJO_AVISO + n + EXITOSAS + m + " fallidas.";
      PREFIJO_AVISO + n + EXITOSAS + m + " fallidas."
  }

  /** Where the pieces of a concatenation `x + y + z` sit. */
  lemma Pieza(x: string, y: string, z: string)
    requires z != []
    ensures var w := x + y + z;
      && |x| + |y| < |w| && w[..|x|] == x && w[|x|..|x| + |y|] == y && w[|x| + |y|] == z[0]
      && (x != [] ==> w[0] == x[0])
  {
  }

  class BannerOfertasComponent {
    var selectedFile: Option<Fichero>
    var previewUrl: Option<string>
    var carruselFiles: array<Option<Fichero>>
    var carruselPreviews: array<Option<string>>
    var mensaje: string
    var tipoBanner: string

    /** Three carousel slots, each with its preview. */
    ghost predicate Valid()
      reads this
    {
      carruselFiles.Length == SLOTS && carruselPreviews.Length == SLOTS
    }

    constructor()
      ensures Valid() && fresh(carruselFiles) && fresh(carruselPreviews)
      ensures selectedFile == None && previewUrl == None
      ensures forall i :: 0 <= i < SLOTS ==> carruselFiles[i].None? && carruselPreviews[i].None?
      ensures mensaje == "" && tipoBanner == TIPO_PRINCIPAL
    {
      selectedFile := None;
      previewUrl := None;
      carruselFiles := new Option<Fichero>[SLOTS](_ => None);
      carruselPreviews := new Option<string>[SLOTS](_ => None);
      mensaje := "";
      tipoBanner := TIPO_PRINCIPAL;
    }

    /** `onFileSelected`: the first chosen file, or none when the picker
        was closed empty. */
    method OnFileSelected(archivo: Option<Fichero>)
      requires Valid()
      modifies this`selectedFile
      ensures selectedFile == archivo
      ensures Valid()
    {
      selectedFile := archivo;
    }

    /** The `onload` callback of the banner's `FileReader`. */
    method PreviewCargado(url: string)
      requires Valid()
      modifies this`previewUrl
      ensures previewUrl == Some(url)
      ensures Valid()
    {
      previewUrl := Some(url);
    }

    /** The guard of `subirBanner`: without a file only the message changes;
        with one the upload of that file under the current kind is returned. */
    method SubirBanner() returns (subida: Option<Subida>)
      requires Valid()
      modifies this`mensaje
      ensures selectedFile.None? ==> subida.None? && mensaje == SIN_IMAGEN
      ensures selectedFile.Some? ==>
        subida == Some(Subida(selectedFile.value, tipoBanner)) && mensaje == old(mensaje)
      ensures Valid()
    {
      if selectedFile.None? {
        mensaje := SIN_IMAGEN;
        return None;
      }
      subida := Some(Subida(selectedFile.value, tipoBanner));
    }

    /** The `next` callback of the banner upload. */
    method BannerSubido()
      requires Valid()
      modifies this`mensaje, this`selectedFile, this`previewUrl
      ensures mensaje == PREFIJO_EXITO + "Banner " + tipoBanner + " subido correctamente."
      ensures selectedFile.None? && previewUrl.None?
      ensures Valid()
    {
      mensaje := PREFIJO_EXITO + "Banner " + tipoBanner + " subido correctamente.";
      selectedFile := None;
      previewUrl := None;
    }

    /** The `error` callback of the banner upload. */
    method BannerFallido()
      requires Valid()
      modifies this`mensaje
      ensures mensaje == "\U{274C} Error al subir el banner " + tipoBanner + "."
      ensures Valid()
    {
      mensaje := "\U{274C} Error al subir el banner " + tipoBanner + ".";
    }

    /** `onCarruselFileSelected`: a chosen file fills slot `index` and
        nothing else; an empty choice changes nothing. */
    method OnCarruselFileSelected(archivo: Option<Fichero>, index: nat)
      requires Valid() && index < SLOTS
      modifies carruselFiles
      ensures archivo.Some? ==> carruselFiles[..] == old(carruselFiles[..])[index := archivo]
      ensures archivo.None? ==> carruselFiles[..] == old(carruselFiles[..])
      ensures archivo.Some? ==>
        ContarImagenesCarrusel() == old(ContarImagenesCarrusel()) + (if old(carruselFiles[index]).None? then 1 else 0)
    {
      if archivo.Some? {
        CambiarSlot(carruselFiles[..], index, archivo);
        carruselFiles[index] := archivo;
      }
    }

    /** The `onload` callback of the reader started for slot `index`. */
    method CarruselPreviewCargado(index: nat, url: string)
      requires Valid() && index < SLOTS
      modifies carruselPreviews
      ensures carruselPreviews[..] == old(carruselPreviews[..])[index := Some(url)]
    {
      carruselPreviews[index] := Some(url);
    }

    /** `eliminarImagenCarrusel`: slot `index` loses its file and its
        preview; the other slots keep theirs. */
    method EliminarImagenCarrusel(index: nat)
      requires Valid() && index < SLOTS
      modifies carruselFiles, carruselPreviews
      ensures carruselFiles[..] == old(carruselFiles[..])[index := None]
      ensures carruselPreviews[..] == old(carruselPreviews[..])[index := None]
      ensures ContarImagenesCarrusel() + (if old(carruselFiles[index]).Some? then 1 else 0)
           == old(ContarImagenesCarrusel())
    {
      CambiarSlot(carruselFiles[..], index, None);
      carruselFiles[index] := None;
      carruselPreviews[index] := None;
    }

    /** `contarImagenesCarrusel`: the number of filled slots, between 0 and 3. */
    function ContarImagenesCarrusel(): (r: nat)
      reads this, carruselFiles
      requires Valid()
      ensures r <= SLOTS
      ensures r == 0 <==> forall i :: 0 <= i < SLOTS ==> carruselFiles[i].None?
      ensures r == SLOTS <==> forall i :: 0 <= i < SLOTS ==> carruselFiles[i].Some?
    {
      ContarOcupados(carruselFiles[..]);
      Count(carruselFiles[..], Ocupado)
    }

    /** `subirCarrusel` up to the requests: with no file chosen only the
        message changes and nothing is uploaded; otherwise the chosen files
        are returned in slot order, one `carrusel` upload each. */
    method SubirCarrusel() returns (subidas: seq<Subida>)
      requires Valid()
      modifies this`mensaje
      ensures |subidas| == ContarImagenesCarrusel()
      ensures forall k :: 0 <= k < |subidas| ==>
        subidas[k] == Subida(Presentes(carruselFiles[..])[k], TIPO_CARRUSEL)
      ensures subidas == [] ==> mensaje == SIN_IMAGENES
      ensures subidas != [] ==> mensaje == SUBIENDO
    {
      var archivos := Presentes(carruselFiles[..]);
      if |archivos| == 0 {
        mensaje := SIN_IMAGENES;
        return [];
      }
      mensaje := SUBIENDO;
      subidas := seq(|archivos|, k requires 0 <= k < |archivos| => Subida(archivos[k], TIPO_CARRUSEL));
    }

    /** `finalizarCargaCarrusel`: the summary message, and both slot arrays
        replaced by fresh arrays of empty slots. */
    method FinalizarCargaCarrusel(exitosas: nat, fallidas: nat)
      modifies this`mensaje, this`carruselFiles, this`carruselPreviews
      ensures Valid() && fresh(carruselFiles) && fresh(carruselPreviews)
      ensures mensaje == MensajeFinal(exitosas, fallidas)
      ensures forall i :: 0 <= i < SLOTS ==> carruselFiles[i].None? && carruselPreviews[i].None?
      ensures ContarImagenesCarrusel() == 0
    {
      mensaje := MensajeFinal(exitosas, fallidas);
      carruselFiles := new Option<Fichero>[SLOTS](_ => None);
      carruselPreviews := new Option<string>[SLOTS](_ => None);
    }
  }
}
