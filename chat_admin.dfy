/** The support-chat console (`ChatAdminStandaloneComponent`): its session
    state and, as pure functions, what each socket event and HTTP callback
    does to it. The component class in chat_admin_componente.dfy performs
    these updates in place and is proved to agree with them. */
module ChatAdmin {
  import opened Base
  import opened Texto

  datatype Remitente = RemCliente | RemAdmin

  /** A chat line. `fecha` is the instant in milliseconds; `None` stands for
      a missing or unparsable date, which `new Date(...)` turns into NaN. */
  datatype Mensaje = Mensaje(
    remitente: Remitente,
    mensaje: string,
    clienteId: Option<string>,
    nombre: Option<string>,
    fecha: Option<int>)

  /** A conversation in the roster. */
  datatype Cliente = Cliente(id: string, nombre: string, notificaciones: nat, ultimoMensaje: string)

  /** One entry of the roster returned by `GET /clientes-chat`. */
  datatype ClienteBackend = ClienteBackend(id: string, nombre: string)

  /** One record of the stored list as `JSON.parse` returns it: the counters
      may be missing. */
  datatype RegistroGuardado = RegistroGuardado(
    id: string,
    nombre: string,
    notificaciones: Option<nat>,
    ultimoMensaje: Option<string>)

  /** The `chat_notificaciones` item of local storage: absent (or empty),
      present but rejected by `JSON.parse`, or a list of records. */
  datatype Almacen = SinDatos | Ilegible | Registros(registros: seq<RegistroGuardado>)

  /** What the handlers change: the roster, the selected conversation and
      the messages shown for it. */
  datatype Sesion = Sesion(clientes: seq<Cliente>, seleccionado: Option<string>, mensajes: seq<Mensaje>)

  const VENTANA_DUPLICADO_MS: int := 2000
  const NOMBRE_SOPORTE: string := "Soporte DINSAC"
  const NOMBRE_CLIENTE: string := "Cliente"
  const URL_UPLOADS: string := "https://backend-dinsac-77sq.onrender.com/uploads/"
  const EXTENSIONES_IMAGEN: seq<string> := ["jpg", "jpeg", "png", "gif", "webp"]

  // ---------------------------------------------------------------- lookup

  function TieneId(id: string): Cliente -> bool { (c: Cliente) => c.id == id }
  function OtroId(id: string): Cliente -> bool { (c: Cliente) => c.id != id }
  function ConPendientes(): Cliente -> bool { (c: Cliente) => c.notificaciones > 0 }

  /** `clientes.findIndex(c => c.id === id)`. */
  function IndiceDe(cs: seq<Cliente>, id: string): (r: Option<nat>)
    ensures r.Some? ==> r.value < |cs| && cs[r.value].id == id
    ensures r.Some? ==> forall j :: 0 <= j < r.value ==> cs[j].id != id
    ensures r.None? <==> forall j :: 0 <= j < |cs| ==> cs[j].id != id
  {
    FirstIndex(cs, TieneId(id))
  }

  /** `clientes.find(c => c.id === id)`. */
  function Buscar(cs: seq<Cliente>, id: string): (r: Option<Cliente>)
    ensures r.Some? ==> r.value in cs && r.value.id == id
    ensures r.None? <==> forall j :: 0 <= j < |cs| ==> cs[j].id != id
  {
    match IndiceDe(cs, id)
    case Some(i) => Some(cs[i])
    case None => None
  }

  /** The unread count shown for `id`; 0 for an unknown conversation. */
  function Notificaciones(cs: seq<Cliente>, id: string): nat {
    match Buscar(cs, id)
    case Some(c) => c.notificaciones
    case None => 0
  }

  predicate IdsUnicos(cs: seq<Cliente>) {
    forall i, j :: 0 <= i < j < |cs| ==> cs[i].id != cs[j].id
  }

  function IdsDe(cs: seq<Cliente>): set<string> {
    set c | c in cs :: c.id
  }

  /** With unique ids, `find` returns the one client carrying the id. */
  lemma BuscarUnico(cs: seq<Cliente>, k: nat)
    requires IdsUnicos(cs) && k < |cs|
    ensures Buscar(cs, cs[k].id) == Some(cs[k])
  {
    var i := IndiceDe(cs, cs[k].id);
    assert i.Some?;
  }

  /** `find` over a list with one element replaced, when the replacement keeps the id. */
  lemma BuscarTrasReemplazo(cs: seq<Cliente>, i: nat, c: Cliente, x: string)
    requires i < |cs| && IndiceDe(cs, c.id) == Some(i)
    ensures Buscar(cs[i := c], x) == if x == c.id then Some(c) else Buscar(cs, x)
  {
    var t := cs[i := c];
    if x != c.id {
      assert forall j :: 0 <= j < |cs| ==> (t[j].id == x <==> cs[j].id == x);
      var a, b := IndiceDe(t, x), IndiceDe(cs, x);
      if a.Some? && b.Some? {
        assert !(a.value < b.value) && !(b.value < a.value);
        assert t[a.value] == cs[a.value];
      }
    } else {
      assert forall j :: 0 <= j < i ==> t[j] == cs[j];
      assert t[i].id == x;
      assert IndiceDe(t, x) == Some(i);
    }
  }

  /** `find` over a list with one client pushed at the end. */
  lemma BuscarTrasAgregar(cs: seq<Cliente>, c: Cliente, x: string)
    requires Buscar(cs, c.id).None?
    ensures Buscar(cs + [c], x) == if x == c.id then Some(c) else Buscar(cs, x)
  {
    var t := cs + [c];
    assert forall j :: 0 <= j < |cs| ==> t[j] == cs[j];
    var a, b := IndiceDe(t, x), IndiceDe(cs, x);
    if x == c.id {
      assert t[|cs|] == c;
    } else if a.Some? && b.Some? {
      assert !(a.value < b.value) && !(b.value < a.value);
    }
  }

  // ------------------------------------------------------------ global total

  /** `clientes.filter(c => c.notificaciones && c.notificaciones > 0).length`,
      the value pushed to the notification service. */
  function TotalConNotificaciones(cs: seq<Cliente>): (r: nat)
    ensures r <= |cs|
    ensures r == 0 <==> forall i :: 0 <= i < |cs| ==> cs[i].notificaciones == 0
  {
    var f := Filter(cs, ConPendientes());
    assert f != [] ==> f[0].notificaciones > 0;
    Count(cs, ConPendientes())
  }

  // -------------------------------------------------------- inbound message

  /** Two lines are the same logical message: same text and sender, and both
      dates known and less than two seconds apart. */
  predicate EsDuplicado(m: Mensaje, msg: Mensaje) {
    && m.mensaje == msg.mensaje
    && m.remitente == msg.remitente
    && m.fecha.Some? && msg.fecha.Some?
    && -VENTANA_DUPLICADO_MS < m.fecha.value - msg.fecha.value < VENTANA_DUPLICADO_MS
  }

  /** `mensajes.some(m => ...)` at lines 71-75. A message without a date is
      never a duplicate. */
  predicate ExisteDuplicado(ms: seq<Mensaje>, msg: Mensaje)
    ensures ExisteDuplicado(ms, msg) ==> msg.fecha.Some?
  {
    exists i :: 0 <= i < |ms| && EsDuplicado(ms[i], msg)
  }

  predicate DeClienteConId(msg: Mensaje) {
    msg.remitente == RemCliente && Truthy(msg.clienteId)
  }

  /** The message after lines 64-67 rewrite its `nombre`: for a client
      message with an id, the roster name, else the name it carried, else
      "Cliente". */
  function ConNombre(cs: seq<Cliente>, msg: Mensaje): (r: Mensaje)
    ensures r.remitente == msg.remitente && r.mensaje == msg.mensaje
    ensures r.clienteId == msg.clienteId && r.fecha == msg.fecha
    ensures DeClienteConId(msg) && Buscar(cs, msg.clienteId.value).None? ==> Truthy(r.nombre)
    ensures !DeClienteConId(msg) ==> r == msg
  {
    if DeClienteConId(msg) then
      var nombre := match Buscar(cs, msg.clienteId.value)
        case Some(c) => c.nombre
        case None => if Truthy(msg.nombre) then msg.nombre.value else NOMBRE_CLIENTE;
      msg.(nombre := Some(nombre))
    else msg
  }

  /** The name line 93 gives a client first seen in a message. */
  function NombreNuevo(msg: Mensaje, id: string): string {
    if Truthy(msg.nombre) then msg.nombre.value else "Cliente " + Take(id, 8)
  }

  /** Lines 87-103: create the client if unseen (with 0 and ''), then add one
      to its count and record the text. */
  function Notificar(cs: seq<Cliente>, id: string, nombre: string, texto: string): (r: seq<Cliente>)
    ensures IdsUnicos(cs) ==> IdsUnicos(r)
  {
    match IndiceDe(cs, id)
    case Some(i) => cs[i := cs[i].(notificaciones := cs[i].notificaciones + 1, ultimoMensaje := texto)]
    case None => cs + [Cliente(id, nombre, 1, texto)]
  }

  /** The client `id` after a notification, given how `find` saw it before:
      the count raised by one and the preview replaced, or a new client. */
  function Notificado(antes: Option<Cliente>, id: string, nombre: string, texto: string): (r: Cliente)
    ensures r.id == (if antes.Some? then antes.value.id else id)
    ensures r.ultimoMensaje == texto
    ensures r.notificaciones == (if antes.Some? then antes.value.notificaciones else 0) + 1
  {
    match antes
    case Some(c) => c.(notificaciones := c.notificaciones + 1, ultimoMensaje := texto)
    case None => Cliente(id, nombre, 1, texto)
  }

  /** Notifying `id` changes that client only (looked up by id): its count
      rises by one and its preview becomes the text; an unseen id gets a new
      client with count 1. The global total rises by one exactly when the
      client had nothing pending before. */
  lemma NotificarPorId(cs: seq<Cliente>, id: string, nombre: string, texto: string, x: string)
    ensures var r := Notificar(cs, id, nombre, texto);
      && (x != id ==> Buscar(r, x) == Buscar(cs, x))
      && Buscar(r, id) == Some(Notificado(Buscar(cs, id), id, nombre, texto))
      && Notificaciones(r, id) == Notificaciones(cs, id) + 1
      && TotalConNotificaciones(r)
         == TotalConNotificaciones(cs) + (if Notificaciones(cs, id) == 0 then 1 else 0)
  {
    NotificarBusca(cs, id, nombre, texto);
    if x != id {
      NotificarOtros(cs, id, nombre, texto, x);
    }
    NotificarTotal(cs, id, nombre, texto);
  }

  /** Every other id is looked up as before. */
  lemma NotificarOtros(cs: seq<Cliente>, id: string, nombre: string, texto: string, x: string)
    requires x != id
    ensures Buscar(Notificar(cs, id, nombre, texto), x) == Buscar(cs, x)
  {
    if IndiceDe(cs, id).Some? {
      var i := IndiceDe(cs, id).value;
      var c := cs[i].(notificaciones := cs[i].notificaciones + 1, ultimoMensaje := texto);
      assert Notificar(cs, id, nombre, texto) == cs[i := c];
      BuscarTrasReemplazo(cs, i, c, x);
    } else {
      var c := Cliente(id, nombre, 1, texto);
      assert Notificar(cs, id, nombre, texto) == cs + [c];
      BuscarTrasAgregar(cs, c, x);
    }
  }

  /** The global total rises by one exactly when `id` had nothing pending. */
  lemma NotificarTotal(cs: seq<Cliente>, id: string, nombre: string, texto: string)
    ensures TotalConNotificaciones(Notificar(cs, id, nombre, texto))
         == TotalConNotificaciones(cs) + (if Notificaciones(cs, id) == 0 then 1 else 0)
  {
    if IndiceDe(cs, id).Some? {
      var i := IndiceDe(cs, id).value;
      var c := cs[i].(notificaciones := cs[i].notificaciones + 1, ultimoMensaje := texto);
      assert Notificar(cs, id, nombre, texto) == cs[i := c];
      NotificarExistente(cs, i, c, id);
    } else {
      var c := Cliente(id, nombre, 1, texto);
      assert Notificar(cs, id, nombre, texto) == cs + [c];
      NotificarNuevo(cs, c, id);
    }
  }

  /** The notified client as `find` returns it afterwards. */
  lemma NotificarBusca(cs: seq<Cliente>, id: string, nombre: string, texto: string)
    ensures Buscar(Notificar(cs, id, nombre, texto), id) == Some(Notificado(Buscar(cs, id), id, nombre, texto))
  {
    if IndiceDe(cs, id).Some? {
      NotificarBuscaExistente(cs, id, nombre, texto);
    } else {
      NotificarBuscaNuevo(cs, id, nombre, texto);
    }
  }

  lemma NotificarBuscaExistente(cs: seq<Cliente>, id: string, nombre: string, texto: string)
    requires IndiceDe(cs, id).Some?
    ensures Buscar(Notificar(cs, id, nombre, texto), id) == Some(Notificado(Buscar(cs, id), id, nombre, texto))
  {
    var i := IndiceDe(cs, id).value;
    var c := cs[i].(notificaciones := cs[i].notificaciones + 1, ultimoMensaje := texto);
    assert Notificar(cs, id, nombre, texto) == cs[i := c];
    NotificarExistente(cs, i, c, id);
  }

  lemma NotificarBuscaNuevo(cs: seq<Cliente>, id: string, nombre: string, texto: string)
    requires IndiceDe(cs, id).None?
    ensures Buscar(Notificar(cs, id, nombre, texto), id) == Some(Notificado(Buscar(cs, id), id, nombre, texto))
  {
    var c := Cliente(id, nombre, 1, texto);
    assert Notificar(cs, id, nombre, texto) == cs + [c];
    NotificarNuevo(cs, c, id);
  }

  /** The increment branch: the client at `i` replaced by `c`, which keeps its
      id and has one more unread message. */
  lemma NotificarExistente(cs: seq<Cliente>, i: nat, c: Cliente, x: string)
    requires i < |cs| && IndiceDe(cs, c.id) == Some(i)
    requires c.notificaciones == cs[i].notificaciones + 1
    ensures Buscar(cs, c.id) == Some(cs[i])
    ensures Buscar(cs[i := c], x) == if x == c.id then Some(c) else Buscar(cs, x)
    ensures TotalConNotificaciones(cs[i := c])
         == TotalConNotificaciones(cs) + (if cs[i].notificaciones == 0 then 1 else 0)
  {
    BuscarTrasReemplazo(cs, i, c, x);
    CountUpdate(cs, i, c, ConPendientes());
  }

  /** The creation branch: a client with an unseen id and one unread message
      pushed at the end. */
  lemma NotificarNuevo(cs: seq<Cliente>, c: Cliente, x: string)
    requires Buscar(cs, c.id).None? && c.notificaciones == 1
    ensures Buscar(cs + [c], x) == if x == c.id then Some(c) else Buscar(cs, x)
    ensures TotalConNotificaciones(cs + [c]) == TotalConNotificaciones(cs) + 1
  {
    BuscarTrasAgregar(cs, c, x);
    CountAppend(cs, c, ConPendientes());
  }

  /** The `socket.on('mensaje')` handler, lines 60-114. */
  function Recibir(s: Sesion, msg: Mensaje): (r: Sesion)
    ensures r.seleccionado == s.seleccionado
    ensures msg.clienteId == s.seleccionado ==> r.clientes == s.clientes
    ensures msg.clienteId == s.seleccionado ==>
      (r.mensajes == s.mensajes <==> ExisteDuplicado(s.mensajes, msg))
    ensures msg.clienteId == s.seleccionado && !ExisteDuplicado(s.mensajes, msg) ==>
      r.mensajes == s.mensajes + [ConNombre(s.clientes, msg)]
    ensures msg.clienteId != s.seleccionado ==> r.mensajes == s.mensajes
    ensures msg.clienteId != s.seleccionado && !DeClienteConId(msg) ==> r == s
    ensures IdsUnicos(s.clientes) ==> IdsUnicos(r.clientes)
  {
    var m := ConNombre(s.clientes, msg);
    assert ExisteDuplicado(s.mensajes, m) == ExisteDuplicado(s.mensajes, msg);
    if m.clienteId == s.seleccionado then
      if ExisteDuplicado(s.mensajes, m) then s else s.(mensajes := s.mensajes + [m])
    else if DeClienteConId(m) then
      var id := m.clienteId.value;
      s.(clientes := Notificar(s.clientes, id, NombreNuevo(m, id), m.mensaje))
    else s
  }

  /** The three ways the handler can go, spelled out on the renamed message. */
  lemma RecibirCasos(s: Sesion, msg: Mensaje)
    ensures var m := ConNombre(s.clientes, msg);
      && (m.clienteId == s.seleccionado && ExisteDuplicado(s.mensajes, m) ==> Recibir(s, msg) == s)
      && (m.clienteId == s.seleccionado && !ExisteDuplicado(s.mensajes, m) ==>
            Recibir(s, msg) == s.(mensajes := s.mensajes + [m]))
      && (m.clienteId != s.seleccionado && DeClienteConId(m) ==>
            Recibir(s, msg) == s.(clientes := Notificar(s.clientes, m.clienteId.value,
                                     NombreNuevo(m, m.clienteId.value), m.mensaje)))
      && (m.clienteId != s.seleccionado && !DeClienteConId(m) ==> Recibir(s, msg) == s)
  {
  }

  /** A client message for a conversation that is not open changes that
      conversation only: one more unread, preview = the text; every other
      conversation, the selection and the visible messages stay. */
  lemma RecibirNotifica(s: Sesion, msg: Mensaje, x: string)
    requires msg.clienteId != s.seleccionado && DeClienteConId(msg)
    ensures var r := Recibir(s, msg); var id := msg.clienteId.value;
      && r.mensajes == s.mensajes && r.seleccionado == s.seleccionado
      && Notificaciones(r.clientes, id) == Notificaciones(s.clientes, id) + 1
      && Buscar(r.clientes, id).Some? && Buscar(r.clientes, id).value.ultimoMensaje == msg.mensaje
      && (x != id ==> Buscar(r.clientes, x) == Buscar(s.clientes, x))
      && TotalConNotificaciones(r.clientes)
         == TotalConNotificaciones(s.clientes) + (if Notificaciones(s.clientes, id) == 0 then 1 else 0)
  {
    var m := ConNombre(s.clientes, msg);
    var id := msg.clienteId.value;
    NotificarPorId(s.clientes, id, NombreNuevo(m, id), m.mensaje, x);
  }

  /** A client first seen in a message is named after the name the message
      carried, or plainly "Cliente": line 66 has already filled in
      `msg.nombre`, so the `Cliente <first 8 characters of the id>` fallback
      of line 93 never applies. */
  lemma NombreDeClienteNuevo(s: Sesion, msg: Mensaje)
    requires msg.clienteId != s.seleccionado && DeClienteConId(msg)
    requires Buscar(s.clientes, msg.clienteId.value).None?
    ensures var id := msg.clienteId.value; var r := Recibir(s, msg);
      && Buscar(r.clientes, id).Some?
      && Buscar(r.clientes, id).value
         == Cliente(id, if Truthy(msg.nombre) then msg.nombre.value else NOMBRE_CLIENTE, 1, msg.mensaje)
      && |r.clientes| == |s.clientes| + 1
  {
    var m := ConNombre(s.clientes, msg);
    var id := msg.clienteId.value;
    NotificarPorId(s.clientes, id, NombreNuevo(m, id), m.mensaje, id);
  }

  /** Feeds messages to the handler one after another. */
  function RecibirTodos(s: Sesion, msgs: seq<Mensaje>): Sesion
    decreases |msgs|
  {
    if msgs == [] then s else RecibirTodos(Recibir(s, msgs[0]), msgs[1..])
  }

  /** n client messages for a conversation that is not open raise its unread
      count by exactly n. The non-selected branch does no duplicate
      suppression, so repeated deliveries all count. */
  lemma {:induction false} NotificacionesAcumuladas(s: Sesion, msgs: seq<Mensaje>, id: string)
    requires id != "" && s.seleccionado != Some(id)
    requires forall k :: 0 <= k < |msgs| ==> msgs[k].remitente == RemCliente && msgs[k].clienteId == Some(id)
    ensures Notificaciones(RecibirTodos(s, msgs).clientes, id) == Notificaciones(s.clientes, id) + |msgs|
    ensures RecibirTodos(s, msgs).mensajes == s.mensajes
    decreases |msgs|
  {
    if msgs != [] {
      RecibirNotifica(s, msgs[0], id);
      NotificacionesAcumuladas(Recibir(s, msgs[0]), msgs[1..], id);
    }
  }

  /** Two deliveries of one message (same text and sender, dates under two
      seconds apart) to the open conversation leave one visible entry; this
      is what absorbs the socket's echo of a message just sent. */
  lemma DuplicadoUnaVez(s: Sesion, m1: Mensaje, m2: Mensaje)
    requires m1.clienteId == s.seleccionado && m2.clienteId == s.seleccionado
    requires !ExisteDuplicado(s.mensajes, m1)
    requires m1.mensaje == m2.mensaje && m1.remitente == m2.remitente
    requires m1.fecha.Some? && m2.fecha.Some?
    requires -VENTANA_DUPLICADO_MS < m1.fecha.value - m2.fecha.value < VENTANA_DUPLICADO_MS
    ensures Recibir(Recibir(s, m1), m2) == Recibir(s, m1)
    ensures Recibir(Recibir(s, m1), m2).mensajes == s.mensajes + [ConNombre(s.clientes, m1)]
  {
    var s1 := Recibir(s, m1);
    assert s1.mensajes[|s.mensajes|] == ConNombre(s.clientes, m1);
    assert EsDuplicado(s1.mensajes[|s.mensajes|], m2);
  }

  /** The socket's echo of a message the admin has just shown (same text
      and sender, dates under two seconds apart) leaves the open
      conversation as it is. */
  lemma EcoIgnorado(s: Sesion, enviado: Mensaje, eco: Mensaje)
    requires enviado in s.mensajes && eco.clienteId == s.seleccionado
    requires enviado.mensaje == eco.mensaje && enviado.remitente == eco.remitente
    requires enviado.fecha.Some? && eco.fecha.Some?
    requires -VENTANA_DUPLICADO_MS < enviado.fecha.value - eco.fecha.value < VENTANA_DUPLICADO_MS
    ensures Recibir(s, eco) == s
  {
    var i :| 0 <= i < |s.mensajes| && s.mensajes[i] == enviado;
    assert EsDuplicado(s.mensajes[i], eco);
  }

  // ----------------------------------------------------------- deletion

  /** The `chat-eliminado` handler, lines 120-125. */
  function EliminarRemoto(s: Sesion, id: string): (r: Sesion)
    ensures forall i :: 0 <= i < |r.clientes| ==> r.clientes[i].id != id && r.clientes[i] in s.clientes
    ensures forall i :: 0 <= i < |s.clientes| && s.clientes[i].id != id ==> s.clientes[i] in r.clientes
    ensures s.seleccionado == Some(id) ==> r.seleccionado == None && r.mensajes == []
    ensures s.seleccionado != Some(id) ==> r.seleccionado == s.seleccionado && r.mensajes == s.mensajes
  {
    var abierto := s.seleccionado == Some(id);
    Sesion(Filter(s.clientes, OtroId(id)),
           if abierto then None else s.seleccionado,
           if abierto then [] else s.mensajes)
  }

  /** Filtering out one id keeps the ids unique. */
  lemma {:induction false} FiltrarConservaIdsUnicos(cs: seq<Cliente>, p: Cliente -> bool)
    requires IdsUnicos(cs)
    ensures IdsUnicos(Filter(cs, p))
    decreases |cs|
  {
    if cs != [] {
      FiltrarConservaIdsUnicos(cs[1..], p);
      var t := Filter(cs[1..], p);
      forall k | 0 <= k < |t| ensures t[k].id != cs[0].id {
        assert t[k] in cs[1..];
      }
    }
  }

  /** A deletion event removes that conversation only, keeps the others in
      their order with unique ids, and applying it twice is applying it once. */
  lemma EliminarRemotoPropiedades(s: Sesion, id: string)
    ensures IsSubseq(EliminarRemoto(s, id).clientes, s.clientes)
    ensures Buscar(EliminarRemoto(s, id).clientes, id).None?
    ensures IdsUnicos(s.clientes) ==> IdsUnicos(EliminarRemoto(s, id).clientes)
    ensures EliminarRemoto(EliminarRemoto(s, id), id) == EliminarRemoto(s, id)
  {
    FilterIsSubseq(s.clientes, OtroId(id));
    FilterIdempotent(s.clientes, OtroId(id));
    if IdsUnicos(s.clientes) {
      FiltrarConservaIdsUnicos(s.clientes, OtroId(id));
    }
  }

  /** The success callback of `eliminarChat`, lines 326-328: it clears the
      view and the selection whatever is selected when the reply arrives. */
  function EliminarLocal(s: Sesion, id: string): (r: Sesion)
    ensures r.seleccionado == None && r.mensajes == []
    ensures forall i :: 0 <= i < |r.clientes| ==> r.clientes[i].id != id && r.clientes[i] in s.clientes
    ensures forall i :: 0 <= i < |s.clientes| && s.clientes[i].id != id ==> s.clientes[i] in r.clientes
  {
    Sesion(Filter(s.clientes, OtroId(id)), None, [])
  }

  // ------------------------------------------------------------ selection

  /** `seleccionarCliente`, lines 219-227: open the conversation, empty the
      view, and acknowledge its unread messages. */
  function Seleccionar(s: Sesion, id: string): (r: Sesion)
    ensures r.seleccionado == Some(id) && r.mensajes == []
    ensures |r.clientes| == |s.clientes|
  {
    var cs := match IndiceDe(s.clientes, id)
      case Some(i) => s.clientes[i := s.clientes[i].(notificaciones := 0, ultimoMensaje := "")]
      case None => s.clientes;
    Sesion(cs, Some(id), [])
  }

  /** Selecting zeroes that conversation's count and preview, touches no
      other conversation, and lowers the total by one exactly when it had
      unread messages. */
  lemma SeleccionarPorId(s: Sesion, id: string, x: string)
    ensures var r := Seleccionar(s, id);
      && (x != id ==> Buscar(r.clientes, x) == Buscar(s.clientes, x))
      && Buscar(r.clientes, id) == (match Buscar(s.clientes, id)
           case Some(c) => Some(c.(notificaciones := 0, ultimoMensaje := ""))
           case None => None)
      && Notificaciones(r.clientes, id) == 0
      && TotalConNotificaciones(r.clientes) + (if Notificaciones(s.clientes, id) > 0 then 1 else 0)
         == TotalConNotificaciones(s.clientes)
      && (IdsUnicos(s.clientes) ==> IdsUnicos(r.clientes))
  {
    match IndiceDe(s.clientes, id)
    case Some(i) =>
      var c := s.clientes[i].(notificaciones := 0, ultimoMensaje := "");
      BuscarTrasReemplazo(s.clientes, i, c, x);
      BuscarTrasReemplazo(s.clientes, i, c, id);
      CountUpdate(s.clientes, i, c, ConPendientes());
    case None =>
  }

  // ---------------------------------------------------------- roster merge

  function IdsRespuesta(res: seq<ClienteBackend>): set<string> {
    set r | r in res :: r.id
  }

  function EnRespuesta(res: seq<ClienteBackend>): Cliente -> bool {
    (c: Cliente) => exists k :: 0 <= k < |res| && res[k].id == c.id
  }

  /** The name the last roster entry with that id carries. */
  function UltimoNombre(res: seq<ClienteBackend>, id: string): string
    requires id in IdsRespuesta(res)
    decreases |res|
  {
    var u := res[|res| - 1];
    if u.id == id then u.nombre
    else
      assert id in IdsRespuesta(res[..|res| - 1]) by {
        var r :| r in res && r.id == id;
        var k :| 0 <= k < |res| && res[k] == r;
        assert res[..|res| - 1][k] == r;
      }
      UltimoNombre(res[..|res| - 1], id)
  }

  /** One iteration of the `forEach` at lines 180-195. */
  function FusionarUno(cs: seq<Cliente>, r: ClienteBackend): seq<Cliente> {
    match IndiceDe(cs, r.id)
    case Some(i) => cs[i := cs[i].(nombre := r.nombre)]
    case None => cs + [Cliente(r.id, r.nombre, 0, "")]
  }

  /** The whole `forEach`, entry by entry in response order. */
  function FusionarTodos(cs: seq<Cliente>, res: seq<ClienteBackend>): seq<Cliente>
    decreases |res|
  {
    if res == [] then cs else FusionarUno(FusionarTodos(cs, res[..|res| - 1]), res[|res| - 1])
  }

  /** The clients the merge started from keep their place, id and counters;
      those the processed entries do not name are untouched. */
  ghost predicate PrefijoConservado(cs: seq<Cliente>, res: seq<ClienteBackend>, ft: seq<Cliente>) {
    && |ft| >= |cs|
    && forall i :: 0 <= i < |cs| ==>
         ft[i].id == cs[i].id && ft[i].notificaciones == cs[i].notificaciones
         && ft[i].ultimoMensaje == cs[i].ultimoMensaje
         && (cs[i].id !in IdsRespuesta(res) ==> ft[i] == cs[i])
  }

  /** The clients the merge appended are new ids with nothing pending. */
  ghost predicate AgregadosNuevos(cs: seq<Cliente>, ft: seq<Cliente>) {
    forall i :: |cs| <= i < |ft| ==>
      ft[i].notificaciones == 0 && ft[i].ultimoMensaje == "" && ft[i].id !in IdsDe(cs)
  }

  /** Every client named by the processed entries carries the last such entry's name. */
  ghost predicate NombresDeRespuesta(res: seq<ClienteBackend>, ft: seq<Cliente>) {
    forall i :: 0 <= i < |ft| && ft[i].id in IdsRespuesta(res) ==>
      ft[i].nombre == UltimoNombre(res, ft[i].id)
  }

  lemma FusionarTodosPaso(cs: seq<Cliente>, res: seq<ClienteBackend>, k: nat)
    requires k < |res|
    ensures FusionarTodos(cs, res[..k + 1]) == FusionarUno(FusionarTodos(cs, res[..k]), res[k])
  {
    assert res[..k + 1][..k] == res[..k];
  }

  /** What the merge loop keeps true of the list it grows, relative to the
      list `cs` it started from and the entries `res` processed so far. */
  ghost predicate InvarianteFusion(cs: seq<Cliente>, res: seq<ClienteBackend>, ft: seq<Cliente>) {
    && PrefijoConservado(cs, res, ft)
    && AgregadosNuevos(cs, ft)
    && IdsDe(ft) == IdsDe(cs) + IdsRespuesta(res)
    && IdsUnicos(ft)
    && NombresDeRespuesta(res, ft)
  }

  lemma IdsDeTestigo(cs: seq<Cliente>, x: string) returns (i: nat)
    requires x in IdsDe(cs)
    ensures i < |cs| && cs[i].id == x
  {
    var c :| c in cs && c.id == x;
    i :| 0 <= i < |cs| && cs[i] == c;
  }

  lemma IdEnIds(cs: seq<Cliente>, i: nat)
    requires i < |cs|
    ensures cs[i].id in IdsDe(cs)
  {
    assert cs[i] in cs;
  }

  lemma IdsDeMismos(a: seq<Cliente>, b: seq<Cliente>)
    requires |a| == |b| && forall i :: 0 <= i < |a| ==> a[i].id == b[i].id
    ensures IdsDe(a) == IdsDe(b)
  {
    forall x | x in IdsDe(a) ensures x in IdsDe(b) {
      var i := IdsDeTestigo(a, x);
      assert b[i] in b;
    }
    forall x | x in IdsDe(b) ensures x in IdsDe(a) {
      var i := IdsDeTestigo(b, x);
      assert a[i] in a;
    }
  }

  lemma UltimoNombreAgregado(res: seq<ClienteBackend>, r: ClienteBackend, x: string)
    requires x in IdsRespuesta(res) && x != r.id
    ensures x in IdsRespuesta(res + [r])
    ensures UltimoNombre(res + [r], x) == UltimoNombre(res, x)
  {
    assert (res + [r])[..|res + [r]| - 1] == res;
  }

  lemma {:induction false} FusionarTodosInvariante(cs: seq<Cliente>, res: seq<ClienteBackend>)
    requires IdsUnicos(cs)
    ensures InvarianteFusion(cs, res, FusionarTodos(cs, res))
    decreases |res|
  {
    if res == [] {
      assert IdsRespuesta(res) == {};
    } else {
      var res0 := res[..|res| - 1];
      var r := res[|res| - 1];
      assert res == res0 + [r];
      FusionarTodosInvariante(cs, res0);
      FusionarUnoInvariante(cs, res0, r, FusionarTodos(cs, res0));
    }
  }

  lemma IdsRespuestaAgregar(res0: seq<ClienteBackend>, r: ClienteBackend)
    ensures IdsRespuesta(res0 + [r]) == IdsRespuesta(res0) + {r.id}
  {
    var res := res0 + [r];
    assert r in res;
    forall x | x in IdsRespuesta(res) ensures x in IdsRespuesta(res0) + {r.id} {
      var e :| e in res && e.id == x;
      var k :| 0 <= k < |res| && res[k] == e;
      if k < |res0| { assert res0[k] == e; }
    }
    forall x | x in IdsRespuesta(res0) ensures x in IdsRespuesta(res) {
      var e :| e in res0 && e.id == x;
      var k :| 0 <= k < |res0| && res0[k] == e;
      assert res[k] == e;
    }
  }

  /** One merge step adds the entry's id to the ids of the list and no other. */
  lemma IdsDeFusionarUno(ft0: seq<Cliente>, r: ClienteBackend)
    ensures IdsDe(FusionarUno(ft0, r)) == IdsDe(ft0) + {r.id}
  {
    var ft := FusionarUno(ft0, r);
    match IndiceDe(ft0, r.id)
    case Some(i) =>
      IdsDeMismos(ft, ft0);
      assert ft0[i] in ft0;
    case None =>
      forall x | x in IdsDe(ft) ensures x in IdsDe(ft0) + {r.id} {
        var j := IdsDeTestigo(ft, x);
        if j < |ft0| { assert ft0[j] in ft0; }
      }
      forall x | x in IdsDe(ft0) ensures x in IdsDe(ft) {
        var j := IdsDeTestigo(ft0, x);
        assert ft[j] in ft;
      }
      assert ft[|ft0|] in ft;
  }

  lemma FusionarUnoInvariante(cs: seq<Cliente>, res0: seq<ClienteBackend>, r: ClienteBackend, ft0: seq<Cliente>)
    requires InvarianteFusion(cs, res0, ft0)
    ensures InvarianteFusion(cs, res0 + [r], FusionarUno(ft0, r))
  {
    IdsRespuestaAgregar(res0, r);
    IdsDeFusionarUno(ft0, r);
    var res := res0 + [r];
    assert UltimoNombre(res, r.id) == r.nombre;
    forall x | x in IdsRespuesta(res0) && x != r.id
      ensures UltimoNombre(res, x) == UltimoNombre(res0, x)
    {
      UltimoNombreAgregado(res0, r, x);
    }
    match IndiceDe(ft0, r.id)
    case Some(i) =>
      FusionarUnoReemplazo(cs, res0, r, ft0, i);
    case None =>
      FusionarUnoAgregar(cs, res0, r, ft0);
  }

  lemma FusionarUnoReemplazo(cs: seq<Cliente>, res0: seq<ClienteBackend>, r: ClienteBackend, ft0: seq<Cliente>, i: nat)
    requires InvarianteFusion(cs, res0, ft0)
    requires IndiceDe(ft0, r.id) == Some(i)
    requires IdsRespuesta(res0 + [r]) == IdsRespuesta(res0) + {r.id}
    requires IdsDe(FusionarUno(ft0, r)) == IdsDe(ft0) + {r.id}
    requires UltimoNombre(res0 + [r], r.id) == r.nombre
    requires forall x :: x in IdsRespuesta(res0) && x != r.id ==> UltimoNombre(res0 + [r], x) == UltimoNombre(res0, x)
    ensures InvarianteFusion(cs, res0 + [r], FusionarUno(ft0, r))
  {
    var res := res0 + [r];
    var ft := FusionarUno(ft0, r);
    assert ft == ft0[i := ft0[i].(nombre := r.nombre)];
    IdEnIds(ft0, i);
    RenombrarPrefijo(cs, res0, res, ft0, i, r.nombre);
    RenombrarAgregados(cs, ft0, i, r.nombre);
    RenombrarUnicos(ft0, i, r.nombre);
    RenombrarNombres(res0, r, ft0, i);
  }

  /** Renaming the client at `i`, whose id the processed entries now name,
      keeps the original clients' ids and counters. */
  lemma RenombrarPrefijo(cs: seq<Cliente>, res0: seq<ClienteBackend>, res: seq<ClienteBackend>,
                         ft0: seq<Cliente>, i: nat, n: string)
    requires i < |ft0| && PrefijoConservado(cs, res0, ft0)
    requires IdsRespuesta(res0) <= IdsRespuesta(res) && ft0[i].id in IdsRespuesta(res)
    ensures PrefijoConservado(cs, res, ft0[i := ft0[i].(nombre := n)])
  {
    var ft := ft0[i := ft0[i].(nombre := n)];
    forall j | 0 <= j < |cs| && j != i ensures ft[j] == ft0[j] { }
  }

  lemma RenombrarAgregados(cs: seq<Cliente>, ft0: seq<Cliente>, i: nat, n: string)
    requires i < |ft0| && AgregadosNuevos(cs, ft0)
    ensures AgregadosNuevos(cs, ft0[i := ft0[i].(nombre := n)])
  {
    var ft := ft0[i := ft0[i].(nombre := n)];
    forall j | |cs| <= j < |ft| && j != i ensures ft[j] == ft0[j] { }
  }

  lemma RenombrarUnicos(ft0: seq<Cliente>, i: nat, n: string)
    requires i < |ft0| && IdsUnicos(ft0)
    ensures IdsUnicos(ft0[i := ft0[i].(nombre := n)])
  {
    var ft := ft0[i := ft0[i].(nombre := n)];
    forall j | 0 <= j < |ft| ensures ft[j].id == ft0[j].id { }
  }

  /** The renamed client carries the entry's name; the others keep the last
      name they had, which the new entry does not change. */
  lemma RenombrarNombres(res0: seq<ClienteBackend>, r: ClienteBackend, ft0: seq<Cliente>, i: nat)
    requires i < |ft0| && ft0[i].id == r.id && IdsUnicos(ft0)
    requires NombresDeRespuesta(res0, ft0)
    requires IdsRespuesta(res0 + [r]) == IdsRespuesta(res0) + {r.id}
    requires UltimoNombre(res0 + [r], r.id) == r.nombre
    requires forall x :: x in IdsRespuesta(res0) && x != r.id ==> UltimoNombre(res0 + [r], x) == UltimoNombre(res0, x)
    ensures NombresDeRespuesta(res0 + [r], ft0[i := ft0[i].(nombre := r.nombre)])
  {
    var res := res0 + [r];
    var ft := ft0[i := ft0[i].(nombre := r.nombre)];
    forall j | 0 <= j < |ft| && ft[j].id in IdsRespuesta(res)
      ensures ft[j].nombre == UltimoNombre(res, ft[j].id)
    {
      if j != i {
        assert ft[j] == ft0[j];
      }
    }
  }

  lemma FusionarUnoAgregar(cs: seq<Cliente>, res0: seq<ClienteBackend>, r: ClienteBackend, ft0: seq<Cliente>)
    requires InvarianteFusion(cs, res0, ft0)
    requires IndiceDe(ft0, r.id).None?
    requires IdsRespuesta(res0 + [r]) == IdsRespuesta(res0) + {r.id}
    requires IdsDe(FusionarUno(ft0, r)) == IdsDe(ft0) + {r.id}
    requires UltimoNombre(res0 + [r], r.id) == r.nombre
    requires forall x :: x in IdsRespuesta(res0) && x != r.id ==> UltimoNombre(res0 + [r], x) == UltimoNombre(res0, x)
    ensures InvarianteFusion(cs, res0 + [r], FusionarUno(ft0, r))
  {
    var res := res0 + [r];
    var c := Cliente(r.id, r.nombre, 0, "");
    assert FusionarUno(ft0, r) == ft0 + [c];
    assert r.id !in IdsDe(cs) by {
      if r.id in IdsDe(cs) {
        var j := IdsDeTestigo(ft0, r.id);
      }
    }
    AgregarPrefijo(cs, res0, r, ft0, c);
    AgregarNuevos(cs, ft0, c);
    AgregarUnicos(ft0, c);
    AgregarNombres(res0, r, ft0, c);
  }

  lemma AgregarPrefijo(cs: seq<Cliente>, res0: seq<ClienteBackend>, r: ClienteBackend, ft0: seq<Cliente>, c: Cliente)
    requires PrefijoConservado(cs, res0, ft0)
    requires IdsRespuesta(res0 + [r]) == IdsRespuesta(res0) + {r.id}
    ensures PrefijoConservado(cs, res0 + [r], ft0 + [c])
  {
    var ft := ft0 + [c];
    assert forall j :: 0 <= j < |ft0| ==> ft[j] == ft0[j];
  }

  lemma AgregarNuevos(cs: seq<Cliente>, ft0: seq<Cliente>, c: Cliente)
    requires |ft0| >= |cs| && AgregadosNuevos(cs, ft0)
    requires c.notificaciones == 0 && c.ultimoMensaje == "" && c.id !in IdsDe(cs)
    ensures AgregadosNuevos(cs, ft0 + [c])
  {
    var ft := ft0 + [c];
    assert forall j :: 0 <= j < |ft0| ==> ft[j] == ft0[j];
    assert ft[|ft0|] == c;
  }

  lemma AgregarUnicos(ft0: seq<Cliente>, c: Cliente)
    requires IdsUnicos(ft0) && IndiceDe(ft0, c.id).None?
    ensures IdsUnicos(ft0 + [c])
  {
    var ft := ft0 + [c];
    assert forall j :: 0 <= j < |ft0| ==> ft[j] == ft0[j] && ft0[j].id != c.id;
  }

  lemma AgregarNombres(res0: seq<ClienteBackend>, r: ClienteBackend, ft0: seq<Cliente>, c: Cliente)
    requires NombresDeRespuesta(res0, ft0) && IndiceDe(ft0, r.id).None?
    requires c.id == r.id && c.nombre == r.nombre
    requires IdsRespuesta(res0 + [r]) == IdsRespuesta(res0) + {r.id}
    requires UltimoNombre(res0 + [r], r.id) == r.nombre
    requires forall x :: x in IdsRespuesta(res0) && x != r.id ==> UltimoNombre(res0 + [r], x) == UltimoNombre(res0, x)
    ensures NombresDeRespuesta(res0 + [r], ft0 + [c])
  {
    var res := res0 + [r];
    var ft := ft0 + [c];
    forall j | 0 <= j < |ft| && ft[j].id in IdsRespuesta(res)
      ensures ft[j].nombre == UltimoNombre(res, ft[j].id)
    {
      if j < |ft0| {
        assert ft[j] == ft0[j];
      }
    }
  }

  /** The roster merge, lines 180-200: update names in place and append new
      ids with no unread messages, then keep only the ids the backend
      returned. A conversation missing from the response is dropped even
      when it has unread messages. */
  function Fusionar(cs: seq<Cliente>, res: seq<ClienteBackend>): (r: seq<Cliente>)
    ensures IdsDe(r) == IdsRespuesta(res)
    ensures IdsUnicos(cs) ==> IdsUnicos(r)
    ensures IdsUnicos(cs) ==> forall i :: 0 <= i < |cs| && cs[i].id in IdsRespuesta(res) ==>
      Buscar(r, cs[i].id) == Some(cs[i].(nombre := UltimoNombre(res, cs[i].id)))
    ensures IdsUnicos(cs) ==> forall k :: 0 <= k < |res| && res[k].id !in IdsDe(cs) ==>
      Buscar(r, res[k].id) == Some(Cliente(res[k].id, UltimoNombre(res, res[k].id), 0, ""))
  {
    FusionarPropiedades(cs, res);
    Filter(FusionarTodos(cs, res), EnRespuesta(res))
  }

  lemma FusionarPropiedades(cs: seq<Cliente>, res: seq<ClienteBackend>)
    ensures var r := Filter(FusionarTodos(cs, res), EnRespuesta(res));
      && IdsDe(r) == IdsRespuesta(res)
      && (IdsUnicos(cs) ==> IdsUnicos(r))
      && (IdsUnicos(cs) ==> forall i :: 0 <= i < |cs| && cs[i].id in IdsRespuesta(res) ==>
            Buscar(r, cs[i].id) == Some(cs[i].(nombre := UltimoNombre(res, cs[i].id))))
      && (IdsUnicos(cs) ==> forall k :: 0 <= k < |res| && res[k].id !in IdsDe(cs) ==>
            Buscar(r, res[k].id) == Some(Cliente(res[k].id, UltimoNombre(res, res[k].id), 0, "")))
  {
    FusionarIds(cs, res);
    if IdsUnicos(cs) {
      var ft := FusionarTodos(cs, res);
      FusionarTodosInvariante(cs, res);
      FiltrarConservaIdsUnicos(ft, EnRespuesta(res));
      FusionarConservados(cs, res);
      FusionarNuevos(cs, res);
    }
  }

  /** After the final filter the roster carries exactly the returned ids. */
  lemma FusionarIds(cs: seq<Cliente>, res: seq<ClienteBackend>)
    ensures IdsDe(Filter(FusionarTodos(cs, res), EnRespuesta(res))) == IdsRespuesta(res)
  {
    var ft := FusionarTodos(cs, res);
    var r := Filter(ft, EnRespuesta(res));
    assert forall x :: x in IdsRespuesta(res) <==> exists k :: 0 <= k < |res| && res[k].id == x by {
      forall x | x in IdsRespuesta(res) ensures exists k :: 0 <= k < |res| && res[k].id == x {
        var e :| e in res && e.id == x;
        var k :| 0 <= k < |res| && res[k] == e;
      }
      forall x, k | 0 <= k < |res| && res[k].id == x ensures x in IdsRespuesta(res) {
        assert res[k] in res;
      }
    }
    FusionarIdsCubiertos(cs, res, ft);
    forall x | x in IdsDe(r) ensures x in IdsRespuesta(res) {
      var j := IdsDeTestigo(r, x);
    }
  }

  /** A known client that the backend returns keeps its counters and takes
      the last name the backend gives it. */
  lemma FusionarConservados(cs: seq<Cliente>, res: seq<ClienteBackend>)
    requires IdsUnicos(cs)
    ensures forall i :: 0 <= i < |cs| && cs[i].id in IdsRespuesta(res) ==>
      Buscar(Filter(FusionarTodos(cs, res), EnRespuesta(res)), cs[i].id)
        == Some(cs[i].(nombre := UltimoNombre(res, cs[i].id)))
  {
    var ft := FusionarTodos(cs, res);
    var p := EnRespuesta(res);
    var r := Filter(ft, p);
    FusionarTodosInvariante(cs, res);
    FiltrarConservaIdsUnicos(ft, p);
    forall i | 0 <= i < |cs| && cs[i].id in IdsRespuesta(res)
      ensures Buscar(r, cs[i].id) == Some(cs[i].(nombre := UltimoNombre(res, cs[i].id)))
    {
      assert ft[i] == cs[i].(nombre := UltimoNombre(res, cs[i].id));
      assert p(ft[i]);
      var j :| 0 <= j < |r| && r[j] == ft[i];
      BuscarUnico(r, j);
    }
  }

  /** A client first seen in the response enters with no unread messages,
      no preview and the last name the backend gives it. */
  lemma FusionarNuevos(cs: seq<Cliente>, res: seq<ClienteBackend>)
    requires IdsUnicos(cs)
    ensures forall k :: 0 <= k < |res| && res[k].id !in IdsDe(cs) ==>
      Buscar(Filter(FusionarTodos(cs, res), EnRespuesta(res)), res[k].id)
        == Some(Cliente(res[k].id, UltimoNombre(res, res[k].id), 0, ""))
  {
    var ft := FusionarTodos(cs, res);
    var p := EnRespuesta(res);
    var r := Filter(ft, p);
    FusionarTodosInvariante(cs, res);
    FiltrarConservaIdsUnicos(ft, p);
    forall k | 0 <= k < |res| && res[k].id !in IdsDe(cs)
      ensures Buscar(r, res[k].id) == Some(Cliente(res[k].id, UltimoNombre(res, res[k].id), 0, ""))
    {
      assert res[k] in res;
      var j := IdsDeTestigo(ft, res[k].id);
      assert j >= |cs|;
      assert p(ft[j]);
      var m :| 0 <= m < |r| && r[m] == ft[j];
      BuscarUnico(r, m);
    }
  }

  /** Every id of the response is in the merged list (before the final filter)
      and survives the filter. */
  lemma FusionarIdsCubiertos(cs: seq<Cliente>, res: seq<ClienteBackend>, ft: seq<Cliente>)
    requires ft == FusionarTodos(cs, res)
    ensures forall x :: x in IdsRespuesta(res) ==> x in IdsDe(Filter(ft, EnRespuesta(res)))
  {
    FusionarContieneRespuesta(cs, res);
    forall x | x in IdsRespuesta(res) ensures x in IdsDe(Filter(ft, EnRespuesta(res))) {
      var j := IdsDeTestigo(ft, x);
      var e :| e in res && e.id == x;
      var k :| 0 <= k < |res| && res[k] == e;
      assert EnRespuesta(res)(ft[j]);
      var f := Filter(ft, EnRespuesta(res));
      var m :| 0 <= m < |f| && f[m] == ft[j];
      assert f[m] in f;
    }
  }

  /** The ids of the merged list (before the final filter) include every id of the response. */
  lemma {:induction false} FusionarContieneRespuesta(cs: seq<Cliente>, res: seq<ClienteBackend>)
    ensures IdsRespuesta(res) <= IdsDe(FusionarTodos(cs, res))
    decreases |res|
  {
    if res != [] {
      var res0 := res[..|res| - 1];
      var r := res[|res| - 1];
      assert res == res0 + [r];
      FusionarContieneRespuesta(cs, res0);
      IdsRespuestaAgregar(res0, r);
      IdsDeFusionarUno(FusionarTodos(cs, res0), r);
    }
  }

  // ------------------------------------------------------------ persistence

  /** `guardarNotificaciones`, lines 133-140: the record list written to storage. */
  function Guardar(cs: seq<Cliente>): (r: seq<RegistroGuardado>)
    ensures |r| == |cs|
    ensures forall i :: 0 <= i < |cs| ==> r[i].id == cs[i].id && r[i].nombre == cs[i].nombre
    ensures forall i :: 0 <= i < |cs| ==> r[i].notificaciones.Some? && r[i].ultimoMensaje.Some?
  {
    seq(|cs|, i requires 0 <= i < |cs| =>
      RegistroGuardado(cs[i].id, cs[i].nombre, Some(cs[i].notificaciones), Some(cs[i].ultimoMensaje)))
  }

  /** The mapping at lines 157-162: a missing count reads as 0, a missing
      preview as ''. */
  function Cargar(rs: seq<RegistroGuardado>): (r: seq<Cliente>)
    ensures |r| == |rs|
    ensures forall i :: 0 <= i < |rs| ==> r[i].id == rs[i].id && r[i].nombre == rs[i].nombre
    ensures forall i :: 0 <= i < |rs| ==> r[i].notificaciones == rs[i].notificaciones.GetOr(0)
    ensures forall i :: 0 <= i < |rs| ==> r[i].ultimoMensaje == rs[i].ultimoMensaje.GetOr("")
  {
    seq(|rs|, i requires 0 <= i < |rs| =>
      Cliente(rs[i].id, rs[i].nombre, rs[i].notificaciones.GetOr(0), rs[i].ultimoMensaje.GetOr("")))
  }

  /** Saving and loading back reproduces every client exactly. */
  lemma GuardarCargar(cs: seq<Cliente>)
    ensures Cargar(Guardar(cs)) == cs
  {
    var r := Cargar(Guardar(cs));
    assert forall i :: 0 <= i < |cs| ==> r[i] == cs[i];
  }

  /** After a reload, merging a roster with the same ids gives back every
      conversation's unread count and preview. */
  lemma RecargaConservaNotificaciones(cs: seq<Cliente>, res: seq<ClienteBackend>, k: nat)
    requires IdsUnicos(cs) && IdsDe(cs) == IdsRespuesta(res) && k < |cs|
    ensures var r := Fusionar(Cargar(Guardar(cs)), res);
      && Buscar(r, cs[k].id).Some?
      && Buscar(r, cs[k].id).value.notificaciones == cs[k].notificaciones
      && Buscar(r, cs[k].id).value.ultimoMensaje == cs[k].ultimoMensaje
  {
    GuardarCargar(cs);
    assert cs[k] in cs;
  }

  // ---------------------------------------------------------------- history

  /** The display name lines 241-243 give a history message. */
  function NombreHistorial(cs: seq<Cliente>, clienteId: string, m: Mensaje): (r: string)
    ensures r != ""
    ensures m.remitente == RemAdmin ==> r == NOMBRE_SOPORTE
    ensures m.remitente == RemCliente && Truthy(m.nombre) ==> r == m.nombre.value
    ensures m.remitente == RemCliente && !Truthy(m.nombre) ==>
      match Buscar(cs, clienteId)
      case Some(c) => r == if c.nombre != "" then c.nombre else NOMBRE_CLIENTE
      case None => r == NOMBRE_CLIENTE
  {
    if m.remitente == RemCliente then
      if Truthy(m.nombre) then m.nombre.value
      else match Buscar(cs, clienteId)
        case Some(c) => if c.nombre != "" then c.nombre else NOMBRE_CLIENTE
        case None => NOMBRE_CLIENTE
    else NOMBRE_SOPORTE
  }

  /** The history callback, lines 238-244: the fetched messages, each named. */
  function Historial(cs: seq<Cliente>, clienteId: string, res: seq<Mensaje>): (r: seq<Mensaje>)
    ensures |r| == |res|
    ensures forall i :: 0 <= i < |res| ==>
      r[i] == res[i].(nombre := Some(NombreHistorial(cs, clienteId, res[i])))
    ensures forall i :: 0 <= i < |r| ==> Truthy(r[i].nombre)
  {
    seq(|res|, i requires 0 <= i < |res| => res[i].(nombre := Some(NombreHistorial(cs, clienteId, res[i]))))
  }

  // ----------------------------------------------------- file attachments

  /** `url.split('.').pop()?.toLowerCase() || ''`. */
  function ObtenerExtension(url: string): (r: string)
    ensures |r| <= |url|
    ensures forall i :: 0 <= i < |r| ==> r[i] != '.' && !IsUpperAscii(r[i])
  {
    Lower(AfterLast(url, '.'))
  }

  /** The extension is what follows the last dot, lower-cased. */
  lemma ExtensionDe(base: string, ext: string)
    requires forall i :: 0 <= i < |ext| ==> ext[i] != '.'
    ensures ObtenerExtension(base + "." + ext) == Lower(ext)
  {
    var s := base + "." + ext;
    var r := AfterLast(s, '.');
    assert s[|s| - |ext| - 1] == '.';
    assert r == ext;
  }

  function EsImagen(url: string): (r: bool)
    ensures r ==> ObtenerExtension(url) != "pdf"
  {
    ObtenerExtension(url) in EXTENSIONES_IMAGEN
  }

  function EsPDF(url: string): (r: bool)
    ensures r ==> !EsImagen(url)
  {
    ObtenerExtension(url) == "pdf"
  }

  /** A link `base.ext` shows as an image exactly when `ext`, in any case,
      is one of the image extensions. */
  lemma EsImagenDe(base: string, ext: string)
    requires forall i :: 0 <= i < |ext| ==> ext[i] != '.'
    ensures EsImagen(base + "." + ext) <==> Lower(ext) in EXTENSIONES_IMAGEN
  {
    ExtensionDe(base, ext);
  }

  /** A link `base.ext` is offered as a PDF exactly when `ext`, in any case, is "pdf". */
  lemma EsPDFDe(base: string, ext: string)
    requires forall i :: 0 <= i < |ext| ==> ext[i] != '.'
    ensures EsPDF(base + "." + ext) <==> Lower(ext) == "pdf"
  {
    ExtensionDe(base, ext);
  }

  /** A link without any dot is classified by its whole text, lower-cased,
      since `split('.')` then yields the link itself. */
  lemma ExtensionSinPunto(url: string)
    requires forall i :: 0 <= i < |url| ==> url[i] != '.'
    ensures ObtenerExtension(url) == Lower(url)
    ensures EsImagen(url) <==> Lower(url) in EXTENSIONES_IMAGEN
    ensures EsPDF(url) <==> Lower(url) == "pdf"
  {
    assert AfterLast(url, '.') == url;
  }

  /** `esArchivo`: the message holds the uploads URL. */
  function EsArchivo(mensaje: string): bool {
    Contains(mensaje, URL_UPLOADS)
  }

  /** The uploads URL occurs in `mensaje` at position `i`. */
  predicate UploadsEn(mensaje: string, i: int) {
    0 <= i <= |mensaje| - |URL_UPLOADS| && mensaje[i..i + |URL_UPLOADS|] == URL_UPLOADS
  }

  /** A message is an attachment exactly when the uploads URL occurs in it
      at some position. */
  lemma EsArchivoSiContiene(mensaje: string)
    ensures EsArchivo(mensaje) <==> exists i :: UploadsEn(mensaje, i)
  {
    if EsArchivo(mensaje) {
      var i := ContainsWitness(mensaje, URL_UPLOADS);
      assert UploadsEn(mensaje, i);
    }
    forall i | UploadsEn(mensaje, i) {
      ContainsAt(mensaje, URL_UPLOADS, i);
    }
  }

  /** `obtenerNombreArchivo` without `decodeURIComponent`: the last path
      segment with everything up to its first '-' (the upload timestamp)
      removed. */
  function ObtenerNombreArchivo(url: string): (r: string)
    ensures |r| <= |url| && r == url[|url| - |r|..]
    ensures forall i :: 0 <= i < |r| ==> r[i] != '/'
  {
    var segmento := AfterLast(url, '/');
    var r := AfterFirst(segmento, '-');
    SuffixOfSuffix(url, segmento, r);
    SuffixAvoids(segmento, r, '/');
    r
  }

  /** For an uploaded file URL `.../<timestamp>-<name>` the displayed name is `<name>`. */
  lemma NombreArchivoDe(prefijo: string, sello: string, nombre: string)
    requires forall i :: 0 <= i < |sello| ==> sello[i] != '-' && sello[i] != '/'
    requires forall i :: 0 <= i < |nombre| ==> nombre[i] != '/'
    ensures ObtenerNombreArchivo(prefijo + "/" + sello + "-" + nombre) == nombre
  {
    var url := prefijo + "/" + sello + "-" + nombre;
    var seg := sello + "-" + nombre;
    var r := AfterLast(url, '/');
    assert url[|url| - |seg| - 1] == '/';
    assert forall i :: 0 <= i < |seg| ==> seg[i] != '/';
    assert url[|url| - |seg|..] == seg;
    assert r == seg;
    var t := AfterFirst(seg, '-');
    assert seg[|sello|] == '-';
    assert t == seg[|sello| + 1..];
    assert seg[|sello| + 1..] == nombre;
  }
}
