/** The quotation management view (`GestionCotizacionesComponent`): the
    status filter and text search over the loaded quotations, the per-status
    counters, the page of ten shown, the local updates after a successful
    status change or deletion, and the phone number handed to WhatsApp. */
module Cotizaciones {
  import opened Base
  import opened Texto
  import opened Paginacion

  /** A quoted line; the optional price (a float) is not part of this model. */
  datatype Producto = Producto(nombre: Option<string>, equipo: Option<string>, categoria: Option<string>, cantidad: int)

  /** `telefonoMovil` as the backend sends it: a string, an object with a
      `telefono` or `numero` field, or neither. */
  datatype Telefono = TelTexto(texto: string) | TelObjeto(telefono: Option<string>, numero: Option<string>) | TelNulo

  datatype Cotizacion = Cotizacion(
    id: string,
    numeroCotizacion: Option<string>,
    productos: seq<Producto>,
    estado: string,
    nombre: Option<string>,
    email: Option<string>,
    telefonoMovil: Telefono,
    dniRuc: Option<string>)

  /** The body of `GET /cotizaciones`: a bare array or an object whose
      `data` field may hold one. */
  datatype Respuesta = Lista(items: seq<Cotizacion>) | Envoltura(data: Option<seq<Cotizacion>>)

  datatype Estadisticas = Estadisticas(total: nat, pendientes: nat, enProceso: nat, vendida: nat, canceladas: nat)

  const TODOS: string := "todos"
  const PENDIENTE: string := "pendiente"
  const EN_PROCESO: string := "en proceso"
  const VENDIDA: string := "vendida"
  const CANCELADA: string := "cancelada"
  const ITEMS_POR_PAGINA: nat := 10
  const ERROR_CARGA: string := "Error al cargar cotizaciones"

  // ------------------------------------------------------------- filtering

  function ConEstado(estado: string): Cotizacion -> bool {
    (c: Cotizacion) => c.estado == estado
  }

  function ConId(id: string): Cotizacion -> bool {
    (c: Cotizacion) => c.id == id
  }

  function OtroId(id: string): Cotizacion -> bool {
    (c: Cotizacion) => c.id != id
  }

  /** `campo?.toLowerCase().includes(busqueda)`: a missing field never matches. */
  predicate CampoContiene(campo: Option<string>, busqueda: string) {
    campo.Some? && Contains(Lower(campo.value), busqueda)
  }

  /** The search predicate of lines 117-122, for an already lower-cased
      term: name, e-mail and number compare lower-cased, `dniRuc` as it is. */
  predicate Coincide(c: Cotizacion, busqueda: string) {
    || CampoContiene(c.nombre, busqueda)
    || CampoContiene(c.email, busqueda)
    || CampoContiene(c.numeroCotizacion, busqueda)
    || (c.dniRuc.Some? && Contains(c.dniRuc.value, busqueda))
  }

  function CoincideCon(busqueda: string): Cotizacion -> bool {
    (c: Cotizacion) => Coincide(c, busqueda)
  }

  /** Whether a quotation is shown under the two filters, stated on its own:
      any status under "todos", else that status; any quotation under a
      blank search, else one matching the lower-cased (untrimmed) term. */
  predicate Visible(c: Cotizacion, filtroEstado: string, filtroBusqueda: string) {
    && (filtroEstado == TODOS || c.estado == filtroEstado)
    && (IsBlank(filtroBusqueda) || Coincide(c, Lower(filtroBusqueda)))
  }

  function VisibleCon(filtroEstado: string, filtroBusqueda: string): Cotizacion -> bool {
    (c: Cotizacion) => Visible(c, filtroEstado, filtroBusqueda)
  }

  /** `aplicarFiltros`, lines 107-123: the status filter, then the search. */
  function Filtrar(cs: seq<Cotizacion>, filtroEstado: string, filtroBusqueda: string): (r: seq<Cotizacion>)
    ensures r == Filter(cs, VisibleCon(filtroEstado, filtroBusqueda))
    ensures IsSubseq(r, cs)
    ensures forall i :: 0 <= i < |cs| ==> (cs[i] in r <==> Visible(cs[i], filtroEstado, filtroBusqueda))
    ensures filtroEstado != TODOS ==> forall i :: 0 <= i < |r| ==> r[i].estado == filtroEstado
  {
    var porEstado := if filtroEstado != TODOS then Filter(cs, ConEstado(filtroEstado)) else cs;
    var r := if !IsBlank(filtroBusqueda) then Filter(porEstado, CoincideCon(Lower(filtroBusqueda))) else porEstado;
    FiltrarUnaVez(cs, filtroEstado, filtroBusqueda);
    FilterIsSubseq(cs, VisibleCon(filtroEstado, filtroBusqueda));
    r
  }

  /** The two filtering passes are one `filter` by `Visible`. */
  lemma FiltrarUnaVez(cs: seq<Cotizacion>, filtroEstado: string, filtroBusqueda: string)
    ensures var porEstado := if filtroEstado != TODOS then Filter(cs, ConEstado(filtroEstado)) else cs;
      (if !IsBlank(filtroBusqueda) then Filter(porEstado, CoincideCon(Lower(filtroBusqueda))) else porEstado)
      == Filter(cs, VisibleCon(filtroEstado, filtroBusqueda))
  {
    var v := VisibleCon(filtroEstado, filtroBusqueda);
    var b := CoincideCon(Lower(filtroBusqueda));
    if filtroEstado != TODOS {
      if !IsBlank(filtroBusqueda) {
        FilterFilter(cs, ConEstado(filtroEstado), b, v);
      } else {
        FilterFilter(cs, ConEstado(filtroEstado), (c: Cotizacion) => true, v);
        FilterAll(Filter(cs, ConEstado(filtroEstado)), (c: Cotizacion) => true);
      }
    } else {
      if !IsBlank(filtroBusqueda) {
        FilterFilter(cs, (c: Cotizacion) => true, b, v);
        FilterAll(cs, (c: Cotizacion) => true);
      } else {
        FilterAll(cs, v);
      }
    }
  }

  /** A blank search adds nothing to the status filter, and "todos" with a
      blank search shows every quotation. */
  lemma BusquedaEnBlanco(cs: seq<Cotizacion>, filtroEstado: string, filtroBusqueda: string)
    requires IsBlank(filtroBusqueda)
    ensures Filtrar(cs, filtroEstado, filtroBusqueda)
         == (if filtroEstado == TODOS then cs else Filter(cs, ConEstado(filtroEstado)))
  {
    if filtroEstado != TODOS {
      FilterFilter(cs, ConEstado(filtroEstado), (c: Cotizacion) => true, VisibleCon(filtroEstado, filtroBusqueda));
      FilterAll(Filter(cs, ConEstado(filtroEstado)), (c: Cotizacion) => true);
    } else {
      FilterAll(cs, VisibleCon(filtroEstado, filtroBusqueda));
    }
  }

  // ------------------------------------------------------------ statistics

  /** `calcularEstadisticas`, lines 99-103, over a list. */
  function EstadisticasDe(cs: seq<Cotizacion>): (e: Estadisticas)
    ensures e.total == |cs|
    ensures e.pendientes == Count(cs, ConEstado(PENDIENTE))
    ensures e.enProceso == Count(cs, ConEstado(EN_PROCESO))
    ensures e.vendida == Count(cs, ConEstado(VENDIDA))
    ensures e.canceladas == Count(cs, ConEstado(CANCELADA))
    ensures e.pendientes <= e.total && e.enProceso <= e.total && e.vendida <= e.total && e.canceladas <= e.total
    ensures e.pendientes + e.enProceso + e.vendida + e.canceladas <= e.total
  {
    SumaContadores(cs);
    Estadisticas(|cs|, Count(cs, ConEstado(PENDIENTE)), Count(cs, ConEstado(EN_PROCESO)),
                 Count(cs, ConEstado(VENDIDA)), Count(cs, ConEstado(CANCELADA)))
  }

  /** A quotation has one status, so it adds to at most one counter. */
  lemma {:induction false} SumaContadores(cs: seq<Cotizacion>)
    ensures Count(cs, ConEstado(PENDIENTE)) + Count(cs, ConEstado(EN_PROCESO))
          + Count(cs, ConEstado(VENDIDA)) + Count(cs, ConEstado(CANCELADA)) <= |cs|
    decreases |cs|
  {
    if cs != [] {
      SumaContadores(cs[1..]);
    }
  }

  /** Under a status filter the counters show only that status: its counter
      is the total and the other three are 0. */
  lemma EstadisticasConFiltro(cs: seq<Cotizacion>, filtroEstado: string, filtroBusqueda: string)
    requires filtroEstado in [PENDIENTE, EN_PROCESO, VENDIDA, CANCELADA]
    ensures var e := EstadisticasDe(Filtrar(cs, filtroEstado, filtroBusqueda));
      && e.pendientes == (if filtroEstado == PENDIENTE then e.total else 0)
      && e.enProceso == (if filtroEstado == EN_PROCESO then e.total else 0)
      && e.vendida == (if filtroEstado == VENDIDA then e.total else 0)
      && e.canceladas == (if filtroEstado == CANCELADA then e.total else 0)
  {
    var r := Filtrar(cs, filtroEstado, filtroBusqueda);
    FilterAll(r, ConEstado(filtroEstado));
    var estados := [PENDIENTE, EN_PROCESO, VENDIDA, CANCELADA];
    forall k | 0 <= k < 4 && estados[k] != filtroEstado
      ensures Count(r, ConEstado(estados[k])) == 0
    {
      FilterNone(r, ConEstado(estados[k]));
    }
  }

  // --------------------------------------------------------- local updates

  /** The success callback of `actualizarEstado`, lines 150-154: the first
      quotation with that id takes the new status. */
  function CambiarEstado(cs: seq<Cotizacion>, id: string, nuevoEstado: string): (r: seq<Cotizacion>)
    ensures |r| == |cs|
    ensures forall i :: 0 <= i < |cs| ==> r[i].(estado := cs[i].estado) == cs[i]
    ensures forall i :: 0 <= i < |cs| && r[i] != cs[i] ==> cs[i].id == id && r[i].estado == nuevoEstado
    ensures (exists i :: 0 <= i < |cs| && cs[i].id == id) ==>
      exists i :: 0 <= i < |cs| && cs[i].id == id && r[i].estado == nuevoEstado
    ensures forall i :: 0 <= i < |cs| && r[i] != cs[i] ==> FirstIndex(cs, ConId(id)) == Some(i)
    ensures FirstIndex(cs, ConId(id)).Some? ==>
      r[FirstIndex(cs, ConId(id)).value].estado == nuevoEstado
  {
    match FirstIndex(cs, ConId(id))
    case Some(i) => cs[i := cs[i].(estado := nuevoEstado)]
    case None => cs
  }

  /** The success callback of `eliminarCotizacion`, line 169: every
      quotation with that id goes, every other one stays in order. */
  lemma EliminarSoloEsaCotizacion(cs: seq<Cotizacion>, id: string)
    ensures var r := Filter(cs, OtroId(id));
      && IsSubseq(r, cs)
      && (forall i :: 0 <= i < |r| ==> r[i].id != id)
      && (forall i :: 0 <= i < |cs| && cs[i].id != id ==> cs[i] in r)
  {
    FilterIsSubseq(cs, OtroId(id));
  }

  // ------------------------------------------------------------- WhatsApp

  /** Lines 185-189: the raw phone text. */
  function TelefonoCrudo(t: Telefono): string {
    match t
    case TelObjeto(tel, num) => if Truthy(tel) then tel.value else if Truthy(num) then num.value else ""
    case TelTexto(s) => Trim(s)
    case TelNulo => ""
  }

  /** `replace(/\D/g, '')`: the ASCII digits, in order. */
  function Digitos(s: string): (r: string)
    ensures |r| <= |s|
    ensures forall i :: 0 <= i < |r| ==> IsDigit(r[i])
    ensures forall c :: c in s && IsDigit(c) ==> c in r
  {
    Filter(s, IsDigit)
  }

  /** The digits keep their order: a character typed after the others adds
      itself at the end when it is a digit, and nothing otherwise. */
  lemma DigitosEnOrden(s: string, c: char)
    ensures Digitos(s + [c]) == Digitos(s) + (if IsDigit(c) then [c] else [])
  {
    FilterAppend(s, c, IsDigit);
  }

  /** Lines 189-196: the digits of the phone, rejected when fewer than nine. */
  function NumeroWhatsApp(t: Telefono): (r: Option<string>)
    ensures r.Some? ==> |r.value| >= 9 && forall i :: 0 <= i < |r.value| ==> IsDigit(r.value[i])
    ensures r.None? <==> |Digitos(TelefonoCrudo(t))| < 9
    ensures r.Some? ==> r.value == Digitos(TelefonoCrudo(t))
  {
    var d := Digitos(TelefonoCrudo(t));
    if d == [] || |d| < 9 then None else Some(d)
  }

  /** A phone written as nine or more digits alone is used as it is. */
  lemma NumeroLimpio(s: string)
    requires |s| >= 9 && forall i :: 0 <= i < |s| ==> IsDigit(s[i])
    ensures NumeroWhatsApp(TelTexto(s)) == Some(s)
  {
    TrimNoWhitespace(s);
    DigitosTodos(s);
  }

  /** Text made of digits alone is its own digits. */
  lemma DigitosTodos(s: string)
    requires forall i :: 0 <= i < |s| ==> IsDigit(s[i])
    ensures Digitos(s) == s
  {
    FilterAll(s, IsDigit);
  }

  /** The chat link of line 201, without the URL-encoded greeting. */
  function EnlaceWhatsApp(t: Telefono): (r: Option<string>)
    ensures r.Some? <==> NumeroWhatsApp(t).Some?
    ensures r.Some? ==> r.value == "https://wa.me/51" + NumeroWhatsApp(t).value
  {
    match NumeroWhatsApp(t)
    case Some(d) => Some("https://wa.me/51" + d)
    case None => None
  }

  // ----------------------------------------------------------- presentation

  /** `getEstadoColor`: the colour of the four known statuses, grey otherwise. */
  function EstadoColor(estado: string): (r: string)
    ensures r == "#6b7280" <==> estado !in [PENDIENTE, EN_PROCESO, VENDIDA, CANCELADA]
  {
    if estado == PENDIENTE then "#f59e0b"
    else if estado == EN_PROCESO then "#3b82f6"
    else if estado == VENDIDA then "#10b981"
    else if estado == CANCELADA then "#ef4444"
    else "#6b7280"
  }

  /** `getEstadoIcon`: the icon of the four known statuses, a clipboard otherwise. */
  function EstadoIcon(estado: string): (r: string)
    ensures r == "\U{1F4CB}" <==> estado !in [PENDIENTE, EN_PROCESO, VENDIDA, CANCELADA]
  {
    if estado == PENDIENTE then "\U{23F3}"
    else if estado == EN_PROCESO then "\U{1F504}"
    else if estado == VENDIDA then "\U{2705}"
    else if estado == CANCELADA then "\U{274C}"
    else "\U{1F4CB}"
  }

  /** `getNombreProducto`: the first non-empty of name, equipment and
      category, else "Producto". */
  function NombreProducto(p: Producto): (r: string)
    ensures r != ""
    ensures Truthy(p.nombre) ==> r == p.nombre.value
    ensures !Truthy(p.nombre) && Truthy(p.equipo) ==> r == p.equipo.value
    ensures !Truthy(p.nombre) && !Truthy(p.equipo) && Truthy(p.categoria) ==> r == p.categoria.value
    ensures !Truthy(p.nombre) && !Truthy(p.equipo) && !Truthy(p.categoria) ==> r == "Producto"
  {
    if Truthy(p.nombre) then p.nombre.value
    else if Truthy(p.equipo) then p.equipo.value
    else if Truthy(p.categoria) then p.categoria.value
    else "Producto"
  }

  /** `Array.isArray(res) ? res : (res.data || [])`. */
  function Cotizaciones(res: Respuesta): seq<Cotizacion> {
    match res
    case Lista(items) => items
    case Envoltura(data) => data.GetOr([])
  }

  // ------------------------------------------------------------ component

  class GestionCotizaciones {
    var cotizaciones: seq<Cotizacion>
    var cotizacionesFiltradas: seq<Cotizacion>
    var loading: bool
    var error: Option<string>
    var filtroEstado: string
    var filtroBusqueda: string
    var totalCotizaciones: nat
    var pendientes: nat
    var enProceso: nat
    var vendida: nat
    var canceladas: nat
    var cotizacionesPaginadas: seq<Cotizacion>
    var paginaActual: int
    var itemsPorPagina: nat
    var totalPaginas: nat
    var paginasArray: seq<int>

    /** The counters always describe the filtered list. */
    ghost predicate Valid()
      reads this
    {
      && itemsPorPagina > 0
      && Estadisticas(totalCotizaciones, pendientes, enProceso, vendida, canceladas)
         == EstadisticasDe(cotizacionesFiltradas)
    }

    /** The page fields describe the filtered list. */
    ghost predicate Paginado()
      reads this
    {
      && itemsPorPagina > 0
      && totalPaginas == TotalPaginas(|cotizacionesFiltradas|, itemsPorPagina)
      && paginaActual <= Max(totalPaginas, 1)
      && paginasArray == Rango(totalPaginas)
      && cotizacionesPaginadas == Pagina(cotizacionesFiltradas, paginaActual, itemsPorPagina)
    }

    /** The initial state: one page announced (`totalPaginas = 1`) but no
        page buttons, until the first load repaginates. */
    constructor()
      ensures Valid()
      ensures cotizaciones == [] && cotizacionesFiltradas == [] && cotizacionesPaginadas == []
      ensures filtroEstado == TODOS && filtroBusqueda == "" && paginaActual == 1
      ensures totalPaginas == 1 && paginasArray == [] && itemsPorPagina == ITEMS_POR_PAGINA
      ensures !loading && error == None
    {
      cotizaciones := [];
      cotizacionesFiltradas := [];
      loading := false;
      error := None;
      filtroEstado := TODOS;
      filtroBusqueda := "";
      totalCotizaciones, pendientes, enProceso, vendida, canceladas := 0, 0, 0, 0, 0;
      cotizacionesPaginadas := [];
      paginaActual := 1;
      itemsPorPagina := ITEMS_POR_PAGINA;
      totalPaginas := 1;
      paginasArray := [];
    }

    /** `calcularEstadisticas`. */
    method CalcularEstadisticas()
      modifies this`totalCotizaciones, this`pendientes, this`enProceso, this`vendida, this`canceladas
      ensures Estadisticas(totalCotizaciones, pendientes, enProceso, vendida, canceladas)
           == EstadisticasDe(cotizacionesFiltradas)
    {
      var e := EstadisticasDe(cotizacionesFiltradas);
      totalCotizaciones := e.total;
      pendientes := e.pendientes;
      enProceso := e.enProceso;
      vendida := e.vendida;
      canceladas := e.canceladas;
    }

    /** `actualizarPaginacion`: page count, clamp of the current page,
        page-number buttons, and the visible slice. */
    method ActualizarPaginacion()
      requires itemsPorPagina > 0
      modifies this`totalPaginas, this`paginaActual, this`paginasArray, this`cotizacionesPaginadas
      ensures Paginado()
      ensures totalPaginas == TotalPaginas(|cotizacionesFiltradas|, itemsPorPagina)
      ensures paginaActual == AjustarPagina(old(paginaActual), totalPaginas)
    {
      totalPaginas := TotalPaginas(|cotizacionesFiltradas|, itemsPorPagina);
      paginaActual := AjustarPagina(paginaActual, totalPaginas);
      paginasArray := Rango(totalPaginas);
      var inicio := Inicio(paginaActual, itemsPorPagina);
      cotizacionesPaginadas := JsSlice(cotizacionesFiltradas, inicio, inicio + itemsPorPagina);
    }

    /** `calcularEstadisticas()` then `actualizarPaginacion()`, the pair that
        ends every reload and every filter. Neither reads what the other
        writes, and the recount leaves `paginaActual` alone. */
    method Recalcular()
      requires itemsPorPagina > 0
      modifies this`totalCotizaciones, this`pendientes, this`enProceso,
        this`vendida, this`canceladas, this`paginaActual, this`totalPaginas, this`paginasArray,
        this`cotizacionesPaginadas
      ensures Valid() && Paginado()
      ensures paginaActual == AjustarPagina(old(paginaActual), totalPaginas)
    {
      CalcularEstadisticas();
      ActualizarPaginacion();
    }

    /** `aplicarFiltros`: filter, recount, back to page 1, repaginate. */
    method AplicarFiltros()
      requires Valid()
      modifies this`cotizacionesFiltradas, this`totalCotizaciones, this`pendientes, this`enProceso,
        this`vendida, this`canceladas, this`paginaActual, this`totalPaginas, this`paginasArray,
        this`cotizacionesPaginadas
      ensures Valid() && Paginado()
      ensures cotizacionesFiltradas == Filtrar(cotizaciones, filtroEstado, filtroBusqueda)
      ensures paginaActual == 1
    {
      ghost var fuente := (cotizaciones, filtroEstado, filtroBusqueda);
      var filtradas := Filtrar(cotizaciones, filtroEstado, filtroBusqueda);
      cotizacionesFiltradas := filtradas;
      paginaActual := 1;
      Recalcular();
      assert (cotizaciones, filtroEstado, filtroBusqueda) == fuente;
    }

    /** `cambiarPagina`. */
    method CambiarPagina(num: int)
      requires Valid()
      modifies this`paginaActual, this`totalPaginas, this`paginasArray, this`cotizacionesPaginadas
      ensures Valid() && Paginado()
      ensures paginaActual == AjustarPagina(num, totalPaginas)
    {
      paginaActual := num;
      ActualizarPaginacion();
    }

    /** `limpiarFiltros`: resets the filters and shows every quotation in the
        list and the counters, but does not repaginate, so the page fields
        keep describing the previous filtered list. */
    method LimpiarFiltros()
      requires Valid()
      modifies this`filtroEstado, this`filtroBusqueda, this`cotizacionesFiltradas,
        this`totalCotizaciones, this`pendientes, this`enProceso, this`vendida, this`canceladas
      ensures Valid()
      ensures filtroEstado == TODOS && filtroBusqueda == ""
      ensures cotizacionesFiltradas == cotizaciones
    {
      filtroEstado := TODOS;
      filtroBusqueda := "";
      cotizacionesFiltradas := cotizaciones;
      CalcularEstadisticas();
    }

    /** The start of `cargarCotizaciones`. */
    method IniciarCarga()
      modifies this`loading, this`error
      ensures loading && error == None
    {
      loading := true;
      error := None;
    }

    /** The `subscribe` and `finalize` callbacks of `cargarCotizaciones` on
        success: the list ignores the current filters until they are next applied. */
    method CargaExitosa(res: Respuesta)
      requires Valid()
      modifies this`cotizaciones, this`cotizacionesFiltradas, this`loading,
        this`totalCotizaciones, this`pendientes, this`enProceso, this`vendida, this`canceladas,
        this`paginaActual, this`totalPaginas, this`paginasArray, this`cotizacionesPaginadas
      ensures Valid() && Paginado()
      ensures cotizaciones == Cotizaciones(res) && cotizacionesFiltradas == cotizaciones
      ensures paginaActual == AjustarPagina(old(paginaActual), totalPaginas)
      ensures !loading
    {
      var lista := Cotizaciones(res);
      loading := false;
      cotizaciones := lista;
      cotizacionesFiltradas := lista;
      Recalcular();
      assert (cotizaciones, cotizacionesFiltradas, loading) == (lista, lista, false);
    }

    /** On a failed request `catchError` records the error and the
        subscriber receives an empty list. */
    method CargaFallida()
      requires Valid()
      modifies this`cotizaciones, this`cotizacionesFiltradas, this`loading, this`error,
        this`totalCotizaciones, this`pendientes, this`enProceso, this`vendida, this`canceladas,
        this`paginaActual, this`totalPaginas, this`paginasArray, this`cotizacionesPaginadas
      ensures Valid() && Paginado()
      ensures cotizaciones == [] && cotizacionesFiltradas == [] && cotizacionesPaginadas == []
      ensures totalCotizaciones == 0 && totalPaginas == 0 && paginasArray == []
      ensures !loading && error == Some(ERROR_CARGA)
    {
      error := Some(ERROR_CARGA);
      CargaExitosa(Lista([]));
    }

    /** The success callback of `actualizarEstado`: when a quotation has
        that id its status changes and the filters are applied again;
        otherwise nothing changes. */
    method EstadoActualizado(id: string, nuevoEstado: string)
      requires Valid()
      modifies this`cotizaciones, this`cotizacionesFiltradas,
        this`totalCotizaciones, this`pendientes, this`enProceso, this`vendida, this`canceladas,
        this`paginaActual, this`totalPaginas, this`paginasArray, this`cotizacionesPaginadas
      ensures Valid()
      ensures cotizaciones == CambiarEstado(old(cotizaciones), id, nuevoEstado)
      ensures FirstIndex(old(cotizaciones), ConId(id)).Some? ==>
        Paginado() && paginaActual == 1
        && cotizacionesFiltradas == Filtrar(cotizaciones, filtroEstado, filtroBusqueda)
      ensures FirstIndex(old(cotizaciones), ConId(id)).None? ==>
        cotizacionesFiltradas == old(cotizacionesFiltradas)
        && cotizacionesPaginadas == old(cotizacionesPaginadas) && paginaActual == old(paginaActual)
    {
      var i := FirstIndex(cotizaciones, ConId(id));
      if i.Some? {
        cotizaciones := cotizaciones[i.value := cotizaciones[i.value].(estado := nuevoEstado)];
        AplicarFiltros();
      }
    }

    /** The success callback of `eliminarCotizacion`. */
    method CotizacionEliminada(id: string)
      requires Valid()
      modifies this`cotizaciones, this`cotizacionesFiltradas,
        this`totalCotizaciones, this`pendientes, this`enProceso, this`vendida, this`canceladas,
        this`paginaActual, this`totalPaginas, this`paginasArray, this`cotizacionesPaginadas
      ensures Valid() && Paginado()
      ensures cotizaciones == Filter(old(cotizaciones), OtroId(id))
      ensures cotizacionesFiltradas == Filtrar(cotizaciones, filtroEstado, filtroBusqueda)
      ensures paginaActual == 1
    {
      cotizaciones := Filter(cotizaciones, OtroId(id));
      AplicarFiltros();
    }
  }
}
