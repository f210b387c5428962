/** The product catalogue screen (`ProductosComponent`): the checks and
    rewrites `createProduct` applies to the form before it issues a create
    or an update, the object it sends, the YouTube link conversion, the
    form loaded by `editProduct`, the search, the local delete and the
    pagination of the visible list. */
module Productos {
  import opened Base
  import opened Texto
  import opened Paginacion

  // ------------------------------------------------------------------ data

  /** A product as the backend returns it (`Product`, with the optional
      fields of `ProductExtended`). Prices and stock are whole numbers here. */
  datatype Producto = Producto(
    id: Option<string>,
    codigo: string,
    name: string,
    description: string,
    image: string,
    image1: Option<string>,
    image2: Option<string>,
    image3: Option<string>,
    stock: int,
    price: int,
    category: string,
    estado: string,
    videoURL: Option<string>,
    featuresText: Option<string>,
    tagsText: Option<string>,
    destacado: Option<bool>)

  /** `newProduct`, the object bound to the form. It has no `_id`; `price`
      is `None` once `resetForm` has left it out. */
  datatype Formulario = Formulario(
    codigo: string,
    name: string,
    description: string,
    stock: int,
    price: Option<int>,
    category: string,
    estado: string,
    image: string,
    image1: string,
    image2: string,
    image3: string,
    featuresText: string,
    tagsText: string,
    videoURL: string,
    destacado: bool)

  /** `productToSave`: no `_id`; the images and the video appear only when
      set. A `price` of `None` is the `NaN` that `Number(undefined)` gives. */
  datatype Carga = Carga(
    codigo: string,
    name: string,
    description: string,
    stock: int,
    price: Option<int>,
    category: string,
    estado: string,
    featuresText: string,
    tagsText: string,
    destacado: bool,
    image: Option<string>,
    image1: Option<string>,
    image2: Option<string>,
    image3: Option<string>,
    videoURL: Option<string>)

  /** Whether a video or an image field holds a link or an uploaded file. */
  datatype Modo = Url | Archivo

  /** Why `createProduct` stopped before any request. */
  datatype Motivo = FaltanCampos | CodigoVacio | CodigoInvalido

  /** What `createProduct` does: nothing (after an alert), a create request,
      or an update request for `id`, followed by the price alert when
      `avisoPrecio` holds. */
  datatype Envio =
    | Rechazado(motivo: Motivo)
    | Crear(carga: Carga)
    | Actualizar(id: string, carga: Carga, avisoPrecio: bool)

  const ITEMS_POR_PAGINA: nat := 5
  const ESTADO_NORMAL := "Normal"
  const EMBED := "https://www.youtube.com/embed/"
  const MARCA_EMBED := "/embed/"
  const WATCH := "youtube.com/watch?v="
  const CORTO := "youtu.be/"
  const DATA_VIDEO := "data:video"
  const DATA_IMAGEN := "data:image"

  // ------------------------------------------------------ product code

  /** `String(codigo).trim().toUpperCase()`. */
  function NormalizarCodigo(c: string): (r: string)
    ensures |r| == |Trim(c)|
    ensures r == [] <==> IsBlank(c)
    ensures forall i :: 0 <= i < |r| ==> !IsLowerAscii(r[i])
  {
    Upper(Trim(c))
  }

  /** A normalised code is normalised again to itself. */
  lemma {:induction false} NormalizarIdempotente(c: string)
    ensures NormalizarCodigo(NormalizarCodigo(c)) == NormalizarCodigo(c)
  {
    var t := Trim(c);
    var u := Upper(t);
    UpperWhitespace(t);
    TrimUntrimmable(u);
    UpperIdempotent(t);
  }

  /** An alphanumeric code with no lower-case letter, as `createProduct`
      stores it, comes out of the normalisation unchanged. */
  lemma {:induction false} CodigoGuardadoEstable(c: string)
    requires IsAlphanumeric(c)
    requires forall i :: 0 <= i < |c| ==> !IsLowerAscii(c[i])
    ensures NormalizarCodigo(c) == c
  {
    TrimNoWhitespace(c);
    UpperNoLower(c);
  }

  // ----------------------------------------------------- form checks

  predicate CamposCompletos(f: Formulario) {
    f.name != "" && f.description != "" && f.category != "" && f.estado != ""
  }

  /** The three checks at the top of `createProduct`, in order. The blank
      code check never decides anything the format check would not: a code
      passes both exactly when its normalisation is alphanumeric. */
  function Revisar(f: Formulario): (r: Option<Motivo>)
    ensures r == Some(FaltanCampos) <==> !CamposCompletos(f)
    ensures r == Some(CodigoVacio) <==> CamposCompletos(f) && IsBlank(f.codigo)
    ensures r.None? <==> CamposCompletos(f) && IsAlphanumeric(NormalizarCodigo(f.codigo))
  {
    if !CamposCompletos(f) then Some(FaltanCampos)
    else if TrimVacio(f.codigo) then Some(CodigoVacio)
    else if !IsAlphanumeric(NormalizarCodigo(f.codigo)) then Some(CodigoInvalido)
    else None
  }

  // ------------------------------------------------------- YouTube links

  /** A character of a video id: `[^&\s]`. */
  predicate IdChar(c: char) {
    c != '&' && !IsWhitespace(c)
  }

  /** The greedy `([^&\s]+)` group: the longest prefix made of id characters. */
  function PrefijoId(s: string): (r: string)
    ensures |r| <= |s| && r == s[..|r|]
    ensures forall i :: 0 <= i < |r| ==> IdChar(r[i])
    ensures |r| < |s| ==> !IdChar(s[|r|])
    decreases |s|
  {
    if s == [] || !IdChar(s[0]) then [] else [s[0]] + PrefijoId(s[1..])
  }

  lemma {:induction false} PrefijoIdTodo(s: string)
    requires forall i :: 0 <= i < |s| ==> IdChar(s[i])
    ensures PrefijoId(s) == s
    decreases |s|
  {
    if s != [] {
      PrefijoIdTodo(s[1..]);
    }
  }

  /** The regular expression matches at the start of `t`: one of the two
      link prefixes followed by at least one id character. */
  predicate EnlaceEn(t: string) {
    || (StartsWith(t, WATCH) && PrefijoId(t[|WATCH|..]) != [])
    || (StartsWith(t, CORTO) && PrefijoId(t[|CORTO|..]) != [])
  }

  /** The id group of a match that starts at the beginning of `t`: the
      greedy id after whichever prefix matched. */
  function Capturado(t: string): (r: string)
    requires EnlaceEn(t)
    ensures r != [] && forall k :: 0 <= k < |r| ==> IdChar(r[k])
  {
    if StartsWith(t, WATCH) && PrefijoId(t[|WATCH|..]) != [] then PrefijoId(t[|WATCH|..])
    else PrefijoId(t[|CORTO|..])
  }

  /** Position `j` starts a match and no position from `i` up to it does. */
  predicate PrimeraEn(s: string, i: nat, j: nat)
    requires i <= j <= |s|
  {
    EnlaceEn(s[j..]) && forall k :: i <= k < j ==> !EnlaceEn(s[k..])
  }

  /** Where the regular expression, scanning from position `i`, first matches. */
  function PrimerEnlace(s: string, i: nat): (r: Option<nat>)
    requires i <= |s|
    ensures r.None? <==> forall j :: i <= j <= |s| ==> !EnlaceEn(s[j..])
    ensures r.Some? ==> i <= r.value <= |s| && PrimeraEn(s, i, r.value)
    decreases |s| - i
  {
    if EnlaceEn(s[i..]) then Some(i)
    else if i == |s| then None
    else
      var r := PrimerEnlace(s, i + 1);
      PrimerEnlacePaso(s, i, r);
      r
  }

  /** A position without a match does not change where the first match is. */
  lemma PrimerEnlacePaso(s: string, i: nat, r: Option<nat>)
    requires i < |s| && !EnlaceEn(s[i..])
    requires r.None? <==> forall j :: i + 1 <= j <= |s| ==> !EnlaceEn(s[j..])
    requires r.Some? ==> i + 1 <= r.value <= |s| && PrimeraEn(s, i + 1, r.value)
    ensures r.None? <==> forall j :: i <= j <= |s| ==> !EnlaceEn(s[j..])
    ensures r.Some? ==> i <= r.value <= |s| && PrimeraEn(s, i, r.value)
  {
  }

  /** The captured id follows one of the two prefixes in `s`. */
  lemma CapturadoContenido(s: string, j: nat)
    requires j <= |s| && EnlaceEn(s[j..])
    ensures Contains(s, WATCH + Capturado(s[j..])) || Contains(s, CORTO + Capturado(s[j..]))
  {
    var t := s[j..];
    if StartsWith(t, WATCH) && PrefijoId(t[|WATCH|..]) != [] {
      EnlaceContenido(s, j, WATCH, Capturado(t));
    } else {
      EnlaceContenido(s, j, CORTO, Capturado(t));
    }
  }

  lemma EnlaceContenido(s: string, i: nat, prefijo: string, id: string)
    requires i <= |s| && StartsWith(s[i..], prefijo)
    requires |id| <= |s[i..][|prefijo|..]| && id == s[i..][|prefijo|..][..|id|]
    ensures Contains(s, prefijo + id)
  {
    assert s[i..i + |prefijo + id|] == prefijo + id;
    ContainsAt(s, prefijo + id, i);
  }

  /** `url.match(/(?:youtube\.com\/watch\?v=|youtu\.be\/)([^&\s]+)/)`, group 1:
      there is a match exactly when some position starts one, and the id is
      the greedy id after the prefix at the first such position. */
  function Coincidencia(url: string): (r: Option<string>)
    ensures r.None? <==> forall j :: 0 <= j <= |url| ==> !EnlaceEn(url[j..])
    ensures r.Some? ==> exists j :: 0 <= j <= |url| && PrimeraEn(url, 0, j) && r.value == Capturado(url[j..])
    ensures r.Some? ==> r.value != [] && forall k :: 0 <= k < |r.value| ==> IdChar(r.value[k])
    ensures r.Some? ==> Contains(url, WATCH + r.value) || Contains(url, CORTO + r.value)
  {
    match PrimerEnlace(url, 0)
    case None => None
    case Some(j) =>
      CapturadoContenido(url, j);
      Some(Capturado(url[j..]))
  }

  /** `convertirYouTubeURL`. */
  function ConvertirYouTubeURL(url: string): (r: string)
    ensures url == "" ==> r == ""
    ensures Contains(url, MARCA_EMBED) ==> r == url
    ensures r != url ==> Contains(r, MARCA_EMBED) && StartsWith(r, EMBED)
    ensures url != "" && !Contains(url, MARCA_EMBED) && Coincidencia(url).None? ==> r == url
    ensures url != "" && !Contains(url, MARCA_EMBED) && Coincidencia(url).Some? ==>
      r == EMBED + Coincidencia(url).value
  {
    if url == "" then ""
    else if Contains(url, MARCA_EMBED) then url
    else match Coincidencia(url)
      case Some(id) =>
        EmbedMarcado(id);
        EMBED + id
      case None => url
  }

  lemma EmbedMarcado(id: string)
    ensures Contains(EMBED + id, MARCA_EMBED)
    ensures StartsWith(EMBED + id, EMBED)
  {
    assert (EMBED + id)[23..30] == MARCA_EMBED;
    ContainsAt(EMBED + id, MARCA_EMBED, 23);
  }

  /** Converting an already converted link changes nothing. */
  lemma {:induction false} ConvertirIdempotente(url: string)
    ensures ConvertirYouTubeURL(ConvertirYouTubeURL(url)) == ConvertirYouTubeURL(url)
  {
    var r := ConvertirYouTubeURL(url);
    if r != url {
      assert Contains(r, MARCA_EMBED);
    }
  }

  /** The greedy id stops where the id characters stop. */
  lemma {:induction false} PrefijoIdHasta(id: string, post: string)
    requires forall k :: 0 <= k < |id| ==> IdChar(id[k])
    requires post == [] || !IdChar(post[0])
    ensures PrefijoId(id + post) == id
    decreases |id|
  {
    if id != [] {
      assert (id + post)[1..] == id[1..] + post;
      PrefijoIdHasta(id[1..], post);
    } else {
      assert id + post == post;
    }
  }

  /** No match can start at a character other than 'y', so text without a
      'y' in front of a link never starts a match. */
  lemma SinY(pre: string, prefijo: string, id: string, post: string)
    requires forall k :: 0 <= k < |pre| ==> pre[k] != 'y'
    ensures forall j :: 0 <= j < |pre| ==> !EnlaceEn((pre + prefijo + id + post)[j..])
  {
    forall j | 0 <= j < |pre|
      ensures !EnlaceEn((pre + prefijo + id + post)[j..])
    {
      var t := (pre + prefijo + id + post)[j..];
      assert t[0] == pre[j];
      assert WATCH[0] == 'y' && CORTO[0] == 'y';
    }
  }

  /** The first matching position is the only one `PrimerEnlace` can return. */
  lemma {:induction false} PrimerEnlaceUnico(s: string, i: nat, p: nat)
    requires i <= p <= |s| && PrimeraEn(s, i, p)
    ensures PrimerEnlace(s, i) == Some(p)
    decreases p - i
  {
    if i < p {
      assert !EnlaceEn(s[i..]);
      assert PrimeraEn(s, i + 1, p);
      PrimerEnlaceUnico(s, i + 1, p);
    }
  }

  /** When a match starts at `p` and at no earlier position, its id is
      the one the regular expression captures. */
  lemma CoincidenciaEn(url: string, p: nat)
    requires p <= |url| && PrimeraEn(url, 0, p)
    ensures Coincidencia(url) == Some(Capturado(url[p..]))
  {
    PrimerEnlaceUnico(url, 0, p);
  }

  /** A prefix followed by an id that ends where `post` begins starts a
      match, and that id is what it captures. */
  lemma CapturaTras(prefijo: string, id: string, post: string)
    requires prefijo == WATCH || prefijo == CORTO
    requires id != [] && forall k :: 0 <= k < |id| ==> IdChar(id[k])
    requires post == [] || !IdChar(post[0])
    ensures EnlaceEn(prefijo + id + post) && Capturado(prefijo + id + post) == id
  {
    var t := prefijo + id + post;
    assert t[..|prefijo|] == prefijo;
    assert t[|prefijo|..] == id + post;
    PrefijoIdHasta(id, post);
    if prefijo == CORTO {
      assert t[5] == '.' != WATCH[5];
    }
  }

  /** The link `pre + prefijo + id + post` converts to the embed link for `id`. */
  lemma ConvertirTras(pre: string, prefijo: string, id: string, post: string)
    requires prefijo == WATCH || prefijo == CORTO
    requires id != [] && forall k :: 0 <= k < |id| ==> IdChar(id[k])
    requires post == [] || !IdChar(post[0])
    requires forall j :: 0 <= j < |pre| ==> !EnlaceEn((pre + prefijo + id + post)[j..])
    requires !Contains(pre + prefijo + id + post, MARCA_EMBED)
    ensures ConvertirYouTubeURL(pre + prefijo + id + post) == EMBED + id
  {
    var resto := prefijo + id + post;
    var url := pre + prefijo + id + post;
    assert url == pre + resto;
    assert url[|pre|..] == resto;
    CapturaTras(prefijo, id, post);
    assert PrimeraEn(url, 0, |pre|);
    CoincidenciaEn(url, |pre|);
  }

  /** A short link anywhere in the text, `pre + "youtu.be/" + ID + post`, becomes
      the embed link for ID, provided no match starts earlier, the id ends
      where `post` begins (at `&`, whitespace or the end), and the text is
      not already an embed link. */
  lemma ConvertirCorto(pre: string, id: string, post: string)
    requires id != [] && forall k :: 0 <= k < |id| ==> IdChar(id[k])
    requires post == [] || !IdChar(post[0])
    requires forall j :: 0 <= j < |pre| ==> !EnlaceEn((pre + CORTO + id + post)[j..])
    requires !Contains(pre + CORTO + id + post, MARCA_EMBED)
    ensures ConvertirYouTubeURL(pre + CORTO + id + post) == EMBED + id
  {
    ConvertirTras(pre, CORTO, id, post);
  }

  /** A watch link anywhere in the text, `pre + "youtube.com/watch?v=" + ID +
      post`, becomes the embed link for ID under the same conditions. */
  lemma ConvertirWatch(pre: string, id: string, post: string)
    requires id != [] && forall k :: 0 <= k < |id| ==> IdChar(id[k])
    requires post == [] || !IdChar(post[0])
    requires forall j :: 0 <= j < |pre| ==> !EnlaceEn((pre + WATCH + id + post)[j..])
    requires !Contains(pre + WATCH + id + post, MARCA_EMBED)
    ensures ConvertirYouTubeURL(pre + WATCH + id + post) == EMBED + id
  {
    ConvertirTras(pre, WATCH, id, post);
  }

  const HTTPS_WWW := "https://www."

  /** The usual shape: `https://www.youtube.com/watch?v=ID&...`. */
  lemma ConvertirWatchHttps(id: string, post: string)
    requires id != [] && forall k :: 0 <= k < |id| ==> IdChar(id[k])
    requires post == [] || post[0] == '&'
    requires !Contains(HTTPS_WWW + WATCH + id + post, MARCA_EMBED)
    ensures ConvertirYouTubeURL(HTTPS_WWW + WATCH + id + post) == EMBED + id
  {
    assert forall k :: 0 <= k < |HTTPS_WWW| ==> HTTPS_WWW[k] != 'y';
    SinY(HTTPS_WWW, WATCH, id, post);
    ConvertirWatch(HTTPS_WWW, id, post);
  }

  // ------------------------------------------------- createProduct

  /** The form after `createProduct` has rewritten it in place: the code is
      normalised once the first two checks pass, and a link-mode video is
      converted once the format check passes as well. */
  function Preparar(f: Formulario, modoVideo: Modo): (r: Formulario)
    ensures r == f.(codigo := r.codigo, videoURL := r.videoURL)
    ensures Revisar(f) == Some(FaltanCampos) || Revisar(f) == Some(CodigoVacio) ==> r == f
    ensures Revisar(f) == Some(CodigoInvalido) || Revisar(f).None? ==>
      r.codigo == NormalizarCodigo(f.codigo)
    ensures Revisar(f).None? && modoVideo == Url ==> r.videoURL == ConvertirYouTubeURL(f.videoURL)
    ensures Revisar(f).Some? || modoVideo == Archivo ==> r.videoURL == f.videoURL
  {
    match Revisar(f)
    case Some(FaltanCampos) => f
    case Some(CodigoVacio) => f
    case Some(CodigoInvalido) => f.(codigo := NormalizarCodigo(f.codigo))
    case None =>
      f.(codigo := NormalizarCodigo(f.codigo),
         videoURL := if f.videoURL != "" && modoVideo == Url then ConvertirYouTubeURL(f.videoURL)
                     else f.videoURL)
  }

  /** `o` holds `s` exactly when `s` is not empty. */
  predicate Opcional(o: Option<string>, s: string) {
    (o.Some? <==> s != "") && (o.Some? ==> o.value == s)
  }

  /** `productToSave`. */
  function ArmarCarga(f: Formulario): (r: Carga)
    ensures r.codigo == f.codigo && r.name == f.name && r.description == f.description
    ensures r.stock == f.stock && r.price == f.price
    ensures r.category == f.category && r.estado == f.estado
    ensures r.featuresText == f.featuresText && r.tagsText == f.tagsText
    ensures r.destacado == f.destacado
    ensures Opcional(r.image, f.image) && Opcional(r.image1, f.image1)
    ensures Opcional(r.image2, f.image2) && Opcional(r.image3, f.image3)
    ensures Opcional(r.videoURL, f.videoURL)
  {
    Carga(f.codigo, f.name, f.description, f.stock, f.price, f.category, f.estado,
          f.featuresText, f.tagsText, f.destacado,
          if f.image != "" then Some(f.image) else None,
          if f.image1 != "" then Some(f.image1) else None,
          if f.image2 != "" then Some(f.image2) else None,
          if f.image3 != "" then Some(f.image3) else None,
          if f.videoURL != "" then Some(f.videoURL) else None)
  }

  /** The request `createProduct` issues for form `f`. */
  function Enviar(f: Formulario, editando: Option<string>, modoVideo: Modo): (r: Envio)
    ensures r.Rechazado? <==> Revisar(f).Some?
    ensures r.Rechazado? ==> r.motivo == Revisar(f).value
    ensures r.Actualizar? <==> Revisar(f).None? && Truthy(editando)
    ensures r.Actualizar? ==> r.id == editando.value
    ensures r.Actualizar? ==> (r.avisoPrecio <==> f.price.None? || f.price.value < 0)
    ensures !r.Rechazado? ==>
      && IsAlphanumeric(r.carga.codigo)
      && (forall i :: 0 <= i < |r.carga.codigo| ==> !IsLowerAscii(r.carga.codigo[i]))
      && r.carga == ArmarCarga(Preparar(f, modoVideo))
  {
    match Revisar(f)
    case Some(m) => Rechazado(m)
    case None =>
      var g := Preparar(f, modoVideo);
      var c := ArmarCarga(g);
      if Truthy(editando) then Actualizar(editando.value, c, g.price.None? || g.price.value < 0)
      else Crear(c)
  }

  /** A link-mode video is sent converted; a file-mode video is sent as is. */
  lemma VideoEnviado(f: Formulario, editando: Option<string>, modoVideo: Modo)
    requires Revisar(f).None?
    ensures modoVideo == Archivo ==> Opcional(Enviar(f, editando, modoVideo).carga.videoURL, f.videoURL)
    ensures modoVideo == Url ==>
      Opcional(Enviar(f, editando, modoVideo).carga.videoURL, ConvertirYouTubeURL(f.videoURL))
  {
  }

  // ------------------------------------------------------- editProduct

  /** The form `editProduct` builds from `p`: the code trimmed, a missing
      status read as "Normal", absent optional fields as empty. */
  function FormularioDe(p: Producto): (r: Formulario)
    ensures r.codigo == Trim(p.codigo)
    ensures r.estado != "" && (p.estado != "" ==> r.estado == p.estado)
    ensures r.name == p.name && r.description == p.description && r.category == p.category
    ensures r.stock == p.stock && r.price == Some(p.price)
    ensures r.image == p.image
    ensures r.image1 == p.image1.GetOr("") && r.image2 == p.image2.GetOr("") && r.image3 == p.image3.GetOr("")
    ensures r.featuresText == p.featuresText.GetOr("") && r.tagsText == p.tagsText.GetOr("")
    ensures r.videoURL == p.videoURL.GetOr("")
    ensures r.destacado <==> p.destacado == Some(true)
  {
    Formulario(
      Trim(p.codigo), p.name, p.description, p.stock, Some(p.price), p.category,
      if p.estado != "" then p.estado else ESTADO_NORMAL,
      p.image, p.image1.GetOr(""), p.image2.GetOr(""), p.image3.GetOr(""),
      p.featuresText.GetOr(""), p.tagsText.GetOr(""), p.videoURL.GetOr(""),
      p.destacado.GetOr(false))
  }

  /** The form holds a code that trimming leaves unchanged. */
  lemma CodigoEditadoRecortado(p: Producto)
    ensures Trim(FormularioDe(p).codigo) == FormularioDe(p).codigo
  {
    TrimIdempotent(p.codigo);
  }

  /** The value of image field `k` of `imageFields`: image, image1, image2, image3. */
  function ImagenDe(f: Formulario, k: nat): string
    requires k < 4
  {
    if k == 0 then f.image else if k == 1 then f.image1 else if k == 2 then f.image2 else f.image3
  }

  /** The mode `editProduct` gives a field holding `v`. */
  function ModoDe(v: string, marca: string): (r: Modo)
    ensures r == Archivo <==> StartsWith(v, marca)
  {
    if StartsWith(v, marca) then Archivo else Url
  }

  /** Saving a product straight after loading it into the form issues an
      update of that product with the same code, texts, stock and price,
      when its stored code is one `createProduct` accepts. */
  lemma {:induction false} EditarYGuardar(p: Producto)
    requires Truthy(p.id)
    requires p.name != "" && p.description != "" && p.category != ""
    requires IsAlphanumeric(p.codigo) && forall i :: 0 <= i < |p.codigo| ==> !IsLowerAscii(p.codigo[i])
    ensures
      var r := Enviar(FormularioDe(p), p.id, ModoDe(p.videoURL.GetOr(""), DATA_VIDEO));
      && r.Actualizar? && r.id == p.id.value
      && r.carga.codigo == p.codigo && r.carga.name == p.name
      && r.carga.description == p.description && r.carga.category == p.category
      && r.carga.stock == p.stock && r.carga.price == Some(p.price)
      && Opcional(r.carga.image, p.image)
      && (r.avisoPrecio <==> p.price < 0)
  {
    TrimNoWhitespace(p.codigo);
    CodigoGuardadoEstable(p.codigo);
  }

  // ------------------------------------------------------------ search

  /** The predicate of `buscar` for an already lower-cased term. */
  function CoincideBusqueda(termino: string): Producto -> bool {
    (p: Producto) => Contains(Lower(p.name), termino) || Contains(p.codigo, termino)
  }

  /** `buscar` keeps, in order, exactly the products whose lower-cased name
      or whose code contains the lower-cased term. */
  lemma BuscarPropiedades(ps: seq<Producto>, termino: string)
    ensures IsSubseq(Filter(ps, CoincideBusqueda(Lower(termino))), ps)
    ensures forall p :: p in Filter(ps, CoincideBusqueda(Lower(termino))) <==>
      p in ps && (Contains(Lower(p.name), Lower(termino)) || Contains(p.codigo, Lower(termino)))
  {
    FilterIsSubseq(ps, CoincideBusqueda(Lower(termino)));
  }

  /** An empty search shows every product. */
  lemma BuscarVacio(ps: seq<Producto>)
    ensures Filter(ps, CoincideBusqueda(Lower(""))) == ps
  {
    forall i | 0 <= i < |ps| ensures Contains(ps[i].codigo, "") {
      ContainsEmpty(ps[i].codigo);
    }
    FilterAll(ps, CoincideBusqueda(Lower("")));
  }

  /** The code is matched against the lower-cased term without being
      lower-cased itself, so a term with a letter never matches a stored
      (upper-case) code: such products are found by their name only. */
  lemma {:induction false} CodigoNoCoincideConLetras(codigo: string, termino: string, k: nat)
    requires forall i :: 0 <= i < |codigo| ==> !IsLowerAscii(codigo[i])
    requires k < |termino| && (IsUpperAscii(termino[k]) || IsLowerAscii(termino[k]))
    ensures !Contains(codigo, Lower(termino))
  {
    var t := Lower(termino);
    assert IsLowerAscii(t[k]);
    if Contains(codigo, t) {
      var i := ContainsWitness(codigo, t);
    }
  }

  // --------------------------------------------------------- deletion

  function OtroId(id: string): Producto -> bool {
    (p: Producto) => p.id != Some(id)
  }

  /** The local delete keeps, in order, every product but those with that
      `_id`; products without an `_id` are kept. */
  lemma EliminarProductoPropiedades(ps: seq<Producto>, id: string)
    ensures IsSubseq(Filter(ps, OtroId(id)), ps)
    ensures forall p :: p in Filter(ps, OtroId(id)) <==> p in ps && p.id != Some(id)
  {
    FilterIsSubseq(ps, OtroId(id));
  }

  // -------------------------------------------------------- component

  class ProductosComponent {
    var products: seq<Producto>
    var filteredProducts: seq<Producto>
    var searchTerm: string
    var editingProductId: Option<string>
    var newProduct: Formulario
    /** The `mode` of the four entries of `imageFields`. */
    var imageModes: array<Modo>
    var currentPage: int
    var itemsPerPage: nat
    var totalPages: nat
    var videoMode: Modo

    /** The page count describes the visible list, which is always an
        order-preserving selection of the loaded products. */
    ghost predicate Valid()
      reads this`itemsPerPage, this`imageModes, this`totalPages, this`filteredProducts, this`products
    {
      && itemsPerPage > 0
      && imageModes.Length == 4
      && totalPages == TotalPaginas(|filteredProducts|, itemsPerPage)
      && IsSubseq(filteredProducts, products)
    }

    constructor()
      ensures Valid() && fresh(imageModes)
      ensures products == [] && filteredProducts == [] && searchTerm == ""
      ensures editingProductId == None && videoMode == Url
      ensures newProduct.price == Some(0) && newProduct.codigo == "" && newProduct.estado == ""
      ensures currentPage == 1 && itemsPerPage == ITEMS_POR_PAGINA && totalPages == 0
      ensures forall k :: 0 <= k < 4 ==> imageModes[k] == Url
    {
      products := [];
      filteredProducts := [];
      searchTerm := "";
      editingProductId := None;
      newProduct := Formulario("", "", "", 0, Some(0), "", "", "", "", "", "", "", "", "", false);
      imageModes := new Modo[4](_ => Url);
      currentPage := 1;
      itemsPerPage := ITEMS_POR_PAGINA;
      totalPages := 0;
      videoMode := Url;
      SubseqRefl<Producto>([]);
    }

    /** `updatePagination`. */
    method UpdatePagination()
      requires itemsPerPage > 0
      modifies this`totalPages
      ensures totalPages == TotalPaginas(|filteredProducts|, itemsPerPage)
    {
      totalPages := TotalPaginas(|filteredProducts|, itemsPerPage);
    }

    /** The `paginatedProducts` getter: from page 1 on, exactly the slice of
        the visible list from `(currentPage - 1) * itemsPerPage` up to the
        next page, clamped to the list; at most one page, and never empty
        on a listed page. */
    function PaginatedProducts(): (r: seq<Producto>)
      reads this
      requires Valid()
      ensures |r| <= itemsPerPage
      ensures 1 <= currentPage <= totalPages ==> |r| > 0
      ensures 1 <= currentPage ==> forall k :: 0 <= k < |r| ==>
        Inicio(currentPage, itemsPerPage) + k < |filteredProducts|
        && r[k] == filteredProducts[Inicio(currentPage, itemsPerPage) + k]
    ensures 1 <= currentPage ==>
      r == filteredProducts[Min(Inicio(currentPage, itemsPerPage), |filteredProducts|)
                            ..Min(Inicio(currentPage, itemsPerPage) + itemsPerPage, |filteredProducts|)]
    {
      if 1 <= currentPage <= totalPages then
        PaginaListadaNoVacia(filteredProducts, currentPage, itemsPerPage);
        Pagina(filteredProducts, currentPage, itemsPerPage)
      else
        Pagina(filteredProducts, currentPage, itemsPerPage)
    }

    /** The `subscribe` callback of `getAllProducts`. */
    method ProductosCargados(data: seq<Producto>)
      requires Valid()
      modifies this`products, this`filteredProducts, this`currentPage, this`totalPages
      ensures Valid()
      ensures products == data && filteredProducts == data && currentPage == 1
    {
      products := data;
      filteredProducts := data;
      currentPage := 1;
      UpdatePagination();
      SubseqRefl(data);
    }

    /** `createProduct` up to the request it issues: the form is rewritten
        in place and the outcome says which request, if any, is sent. */
    method CreateProduct() returns (envio: Envio)
      requires Valid()
      modifies this`newProduct
      ensures envio == Enviar(old(newProduct), editingProductId, videoMode)
      ensures newProduct == Preparar(old(newProduct), videoMode)
      ensures Valid()
    {
      envio := RevisarYEnviar();
    }

    /** The checks of `createProduct`, each with its alert, then the request;
        only the form changes, so the component invariant is kept by
        `CreateProduct` above. */
    method RevisarYEnviar() returns (envio: Envio)
      modifies this`newProduct
      ensures envio == Enviar(old(newProduct), editingProductId, videoMode)
      ensures newProduct == Preparar(old(newProduct), videoMode)
    {
      ghost var f := newProduct;
      ghost var motivo := Revisar(f);
      if newProduct.name == "" || newProduct.description == ""
         || newProduct.category == "" || newProduct.estado == "" {
        assert motivo == Some(FaltanCampos);
        return Rechazado(FaltanCampos);
      }
      if TrimVacio(newProduct.codigo) {
        assert motivo == Some(CodigoVacio);
        return Rechazado(CodigoVacio);
      }
      newProduct := newProduct.(codigo := NormalizarCodigo(newProduct.codigo));
      if !IsAlphanumeric(newProduct.codigo) {
        assert motivo == Some(CodigoInvalido);
        return Rechazado(CodigoInvalido);
      }
      envio := EnviarRevisado(f);
    }

    /** The rest of `createProduct` once the three checks have passed: a
        link-mode video is converted in place, `productToSave` is built, and
        the update or the creation is issued. */
    method EnviarRevisado(ghost f: Formulario) returns (envio: Envio)
      requires Revisar(f).None? && newProduct == f.(codigo := NormalizarCodigo(f.codigo))
      modifies this`newProduct
      ensures newProduct == Preparar(f, videoMode)
      ensures envio == Enviar(f, editingProductId, videoMode)
    {
      if newProduct.videoURL != "" && videoMode == Url {
        newProduct := newProduct.(videoURL := ConvertirYouTubeURL(newProduct.videoURL));
      }
      var carga := ArmarCarga(newProduct);
      if Truthy(editingProductId) {
        envio := Actualizar(editingProductId.value, carga,
                            newProduct.price.None? || newProduct.price.value < 0);
      } else {
        envio := Crear(carga);
      }
    }

    /** `editProduct` (and `openEditModal`). */
    method EditProduct(p: Producto)
      requires Valid()
      modifies this`newProduct, this`editingProductId, this`videoMode, imageModes
      ensures Valid()
      ensures newProduct == FormularioDe(p)
      ensures editingProductId == if Truthy(p.id) then p.id else None
      ensures videoMode == ModoDe(p.videoURL.GetOr(""), DATA_VIDEO)
      ensures forall k :: 0 <= k < 4 ==> imageModes[k] == ModoDe(ImagenDe(newProduct, k), DATA_IMAGEN)
    {
      newProduct := FormularioDe(p);
      editingProductId := if Truthy(p.id) then p.id else None;
      if p.videoURL.Some? && StartsWith(p.videoURL.value, DATA_VIDEO) {
        videoMode := Archivo;
      } else {
        videoMode := Url;
      }
      ModosDeImagen();
    }

    /** The `forEach` over `imageFields` in `editProduct`: a field whose
        value is a data URL of an image is in file mode, any other in link mode. */
    method ModosDeImagen()
      requires imageModes.Length == 4
      modifies imageModes
      ensures forall k :: 0 <= k < 4 ==> imageModes[k] == ModoDe(ImagenDe(newProduct, k), DATA_IMAGEN)
    {
      for k := 0 to 4
        invariant forall j :: 0 <= j < k ==> imageModes[j] == ModoDe(ImagenDe(newProduct, j), DATA_IMAGEN)
      {
        var valor := ImagenDe(newProduct, k);
        if StartsWith(valor, DATA_IMAGEN) {
          imageModes[k] := Archivo;
        } else {
          imageModes[k] := Url;
        }
      }
    }

    /** The success callback of `deleteProduct`. */
    method ProductoEliminado(id: string)
      requires Valid()
      modifies this`products, this`filteredProducts, this`currentPage, this`totalPages
      ensures Valid()
      ensures products == Filter(old(products), OtroId(id))
      ensures filteredProducts == products && currentPage == 1
    {
      products := Filter(products, OtroId(id));
      filteredProducts := products;
      currentPage := 1;
      UpdatePagination();
      SubseqRefl(products);
    }

    /** `resetForm`: every field but `price`, which it leaves undefined. */
    method ResetForm()
      requires Valid()
      modifies this`newProduct, this`editingProductId, this`videoMode
      ensures newProduct == Formulario("", "", "", 0, None, "", "", "", "", "", "", "", "", "", false)
      ensures editingProductId == None && videoMode == Url
      ensures Valid()
    {
      newProduct := Formulario("", "", "", 0, None, "", "", "", "", "", "", "", "", "", false);
      editingProductId := None;
      videoMode := Url;
    }

    /** `buscar`. */
    method Buscar()
      requires Valid()
      modifies this`filteredProducts, this`currentPage, this`totalPages
      ensures Valid()
      ensures filteredProducts == Filter(products, CoincideBusqueda(Lower(searchTerm)))
      ensures currentPage == 1
    {
      var termino := Lower(searchTerm);
      filteredProducts := Filter(products, CoincideBusqueda(termino));
      currentPage := 1;
      UpdatePagination();
      FilterIsSubseq(products, CoincideBusqueda(termino));
    }
  }
}
