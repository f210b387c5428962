/** `ChatAdminStandaloneComponent` as an object: its fields change in place
    as socket events and HTTP replies arrive. Local storage and the value
    last pushed to `ChatNotificationService` are fields too, so that each
    handler states what it persists and publishes. */
module ChatAdminComponente {
  import opened Base
  import opened Texto
  import opened ChatAdmin

  class ChatAdminStandalone {
    var mensajeEscrito: string
    var mensajes: seq<Mensaje>
    var clientes: seq<Cliente>
    var clienteSeleccionado: Option<string>
    /** The `chat_notificaciones` item of local storage. */
    var almacen: Almacen
    /** The last total handed to `ChatNotificationService.actualizar`. */
    var totalPublicado: nat

    /** The sidebar badge always shows how many conversations have unread
        messages. */
    ghost predicate Valid()
      reads this
    {
      totalPublicado == TotalConNotificaciones(clientes)
    }

    function SesionActual(): Sesion
      reads this
    {
      Sesion(clientes, clienteSeleccionado, mensajes)
    }

    /** A fresh component over what local storage holds; the service starts at 0. */
    constructor(almacenInicial: Almacen)
      ensures Valid()
      ensures mensajeEscrito == "" && mensajes == [] && clientes == []
      ensures clienteSeleccionado == None && almacen == almacenInicial && totalPublicado == 0
    {
      mensajeEscrito := "";
      mensajes := [];
      clientes := [];
      clienteSeleccionado := None;
      almacen := almacenInicial;
      totalPublicado := 0;
    }

    /** `guardarNotificaciones`. */
    method GuardarNotificaciones()
      modifies this`almacen
      ensures almacen == Registros(Guardar(clientes))
    {
      almacen := Registros(Guardar(clientes));
    }

    /** `actualizarContadorGlobal`. */
    method ActualizarContadorGlobal()
      modifies this`totalPublicado
      ensures Valid()
    {
      totalPublicado := TotalConNotificaciones(clientes);
    }

    /** `cargarNotificacionesGuardadas`: nothing stored leaves everything as
        it is; an unreadable item is removed; a readable list replaces the
        roster and is published. */
    method CargarNotificacionesGuardadas()
      requires Valid()
      modifies this
      ensures Valid()
      ensures mensajes == old(mensajes) && clienteSeleccionado == old(clienteSeleccionado)
      ensures mensajeEscrito == old(mensajeEscrito)
      ensures old(almacen).SinDatos? ==> clientes == old(clientes) && almacen == SinDatos
      ensures old(almacen).Ilegible? ==> clientes == old(clientes) && almacen == SinDatos
      ensures old(almacen).Registros? ==>
        clientes == Cargar(old(almacen).registros) && almacen == old(almacen)
    {
      match almacen
      case SinDatos =>
      case Ilegible =>
        almacen := SinDatos;
      case Registros(rs) =>
        clientes := Cargar(rs);
        ActualizarContadorGlobal();
    }

    /** The `forEach` of `cargarClientes` over the roster response: an id
        already present takes the entry's name, a new id is appended with
        nothing pending. */
    static method FusionarRespuesta(cs: seq<Cliente>, res: seq<ClienteBackend>) returns (ft: seq<Cliente>)
      ensures ft == FusionarTodos(cs, res)
    {
      ft := cs;
      var k := 0;
      while k < |res|
        invariant 0 <= k <= |res|
        invariant ft == FusionarTodos(cs, res[..k])
      {
        var r := res[k];
        var i := IndiceDe(ft, r.id);
        ghost var previos := ft;
        if i.Some? {
          ft := ft[i.value := ft[i.value].(nombre := r.nombre)];
        } else {
          ft := ft + [Cliente(r.id, r.nombre, 0, "")];
        }
        assert ft == FusionarUno(previos, r);
        FusionarTodosPaso(cs, res, k);
        k := k + 1;
      }
      assert res[..|res|] == res;
    }

    /** The `next` callback of `cargarClientes`: the merge, the filter to the
        returned ids, then save and publish. */
    method ClientesCargados(res: seq<ClienteBackend>)
      requires Valid()
      modifies this
      ensures Valid()
      ensures clientes == Fusionar(old(clientes), res)
      ensures almacen == Registros(Guardar(clientes))
      ensures mensajes == old(mensajes) && clienteSeleccionado == old(clienteSeleccionado)
      ensures mensajeEscrito == old(mensajeEscrito)
    {
      var ft := FusionarRespuesta(clientes, res);
      clientes := Filter(ft, EnRespuesta(res));
      GuardarNotificaciones();
      ActualizarContadorGlobal();
    }

    /** Lines 87-103: find the client, create it (count 0, no preview) when
        unseen, then add one to its count and record the text. */
    static method NotificarCliente(cs: seq<Cliente>, id: string, nombre: string, texto: string)
      returns (r: seq<Cliente>)
      ensures r == Notificar(cs, id, nombre, texto)
    {
      r := cs;
      var i := IndiceDe(r, id);
      if i.None? {
        r := r + [Cliente(id, nombre, 0, "")];
        i := Some(|r| - 1);
      }
      var c := r[i.value];
      r := r[i.value := c.(notificaciones := c.notificaciones + 1, ultimoMensaje := texto)];
    }

    /** The `mensaje` socket handler. */
    method RecibirMensaje(msg: Mensaje)
      requires Valid()
      modifies this
      ensures Valid()
      ensures SesionActual() == Recibir(old(SesionActual()), msg)
      ensures almacen == if msg.clienteId != old(clienteSeleccionado) && DeClienteConId(msg)
                         then Registros(Guardar(clientes)) else old(almacen)
      ensures mensajeEscrito == old(mensajeEscrito)
    {
      AplicarMensaje(msg);
      ghost var s1, a1 := SesionActual(), almacen;
      ActualizarContadorGlobal();
      assert SesionActual() == s1 && almacen == a1;
    }

    /** Lines 60-110 of the handler: the message shown or the roster
        notified and saved, before the total is published. */
    method AplicarMensaje(msg: Mensaje)
      modifies this`clientes, this`mensajes, this`almacen
      ensures SesionActual() == Recibir(old(SesionActual()), msg)
      ensures almacen == if msg.clienteId != old(clienteSeleccionado) && DeClienteConId(msg)
                         then Registros(Guardar(clientes)) else old(almacen)
    {
      ghost var s0 := SesionActual();
      var m := ConNombre(clientes, msg);
      RecibirCasos(s0, msg);
      if m.clienteId == clienteSeleccionado {
        if !ExisteDuplicado(mensajes, m) {
          mensajes := mensajes + [m];
        }
      } else if DeClienteConId(m) {
        var id := m.clienteId.value;
        clientes := NotificarCliente(clientes, id, NombreNuevo(m, id), m.mensaje);
        GuardarNotificaciones();
      }
    }

    /** The `chat-eliminado` socket handler. */
    method ChatEliminado(id: string)
      requires Valid()
      modifies this
      ensures Valid()
      ensures SesionActual() == EliminarRemoto(old(SesionActual()), id)
      ensures almacen == Registros(Guardar(clientes))
      ensures mensajeEscrito == old(mensajeEscrito)
    {
      if clienteSeleccionado == Some(id) {
        clienteSeleccionado := None;
        mensajes := [];
      }
      clientes := Filter(clientes, OtroId(id));
      GuardarNotificaciones();
      ghost var s1, a1 := SesionActual(), almacen;
      ActualizarContadorGlobal();
      assert SesionActual() == s1 && almacen == a1;
    }

    /** `seleccionarCliente` up to the history request. Saving and publishing
        happen only when the client is in the roster. */
    method SeleccionarCliente(id: string)
      requires Valid()
      modifies this
      ensures Valid()
      ensures SesionActual() == Seleccionar(old(SesionActual()), id)
      ensures almacen == if Buscar(old(clientes), id).Some? then Registros(Guardar(clientes)) else old(almacen)
      ensures mensajeEscrito == old(mensajeEscrito)
    {
      ghost var s0 := SesionActual();
      clienteSeleccionado := Some(id);
      mensajes := [];
      var i := IndiceDe(clientes, id);
      if i.Some? {
        MarcarLeido(i.value);
      }
      assert SesionActual() == Seleccionar(s0, id);
    }

    /** Lines 224-231: the conversation at `i` has nothing pending and no
        preview any more; the roster is saved and the total published. */
    method MarcarLeido(i: nat)
      requires i < |clientes|
      modifies this`clientes, this`almacen, this`totalPublicado
      ensures Valid()
      ensures clientes == old(clientes)[i := old(clientes)[i].(notificaciones := 0, ultimoMensaje := "")]
      ensures almacen == Registros(Guardar(clientes))
    {
      clientes := clientes[i := clientes[i].(notificaciones := 0, ultimoMensaje := "")];
      GuardarNotificaciones();
      ghost var cs, a := clientes, almacen;
      ActualizarContadorGlobal();
      assert clientes == cs && almacen == a;
    }

    /** The `next` callback of the history request for `clienteId`. It
        replaces the visible messages whatever is selected when it arrives. */
    method HistorialCargado(clienteId: string, res: seq<Mensaje>)
      requires Valid()
      modifies this`mensajes
      ensures Valid()
      ensures mensajes == Historial(clientes, clienteId, res)
    {
      mensajes := Historial(clientes, clienteId, res);
    }

    /** `enviarMensaje`: a blank draft or no open conversation sends nothing;
        otherwise the admin message (dated `ahora`) is shown, returned for
        `emit`, and the draft is cleared. */
    method EnviarMensaje(ahora: int) returns (enviado: Option<Mensaje>)
      requires Valid()
      modifies this`mensajes, this`mensajeEscrito
      ensures Valid()
      ensures enviado.None? <==> IsBlank(old(mensajeEscrito)) || !Truthy(old(clienteSeleccionado))
      ensures enviado.None? ==>
        mensajes == old(mensajes) && mensajeEscrito == old(mensajeEscrito)
      ensures enviado.Some? ==>
        && enviado.value == Mensaje(RemAdmin, old(mensajeEscrito), old(clienteSeleccionado),
                                    Some(NOMBRE_SOPORTE), Some(ahora))
        && mensajes == old(mensajes) + [enviado.value]
        && mensajeEscrito == ""
      ensures clientes == old(clientes) && clienteSeleccionado == old(clienteSeleccionado)
      ensures almacen == old(almacen) && totalPublicado == old(totalPublicado)
    {
      if TrimVacio(mensajeEscrito) || !Truthy(clienteSeleccionado) {
        return None;
      }
      var msg := MostrarEnviado(ahora);
      enviado := Some(msg);
    }

    /** The sending path of `enviarMensaje`: the admin message is shown and
        the draft cleared. */
    method MostrarEnviado(ahora: int) returns (msg: Mensaje)
      modifies this`mensajes, this`mensajeEscrito
      ensures msg == Mensaje(RemAdmin, old(mensajeEscrito), clienteSeleccionado, Some(NOMBRE_SOPORTE), Some(ahora))
      ensures mensajes == old(mensajes) + [msg] && mensajeEscrito == ""
    {
      msg := Mensaje(RemAdmin, mensajeEscrito, clienteSeleccionado, Some(NOMBRE_SOPORTE), Some(ahora));
      mensajes := mensajes + [msg];
      mensajeEscrito := "";
    }

    /** The guard of `eliminarChat`: the id the DELETE request is for, or
        `None` when nothing is selected or the user declines the prompt. */
    method SolicitarEliminarChat(confirmado: bool) returns (r: Option<string>)
      ensures r.Some? <==> Truthy(clienteSeleccionado) && confirmado
      ensures r.Some? ==> r == clienteSeleccionado
    {
      if !Truthy(clienteSeleccionado) {
        return None;
      }
      if !confirmado {
        return None;
      }
      r := clienteSeleccionado;
    }

    /** The `next` callback of the DELETE request for `id`. */
    method ChatEliminadoLocal(id: string)
      requires Valid()
      modifies this
      ensures Valid()
      ensures SesionActual() == EliminarLocal(old(SesionActual()), id)
      ensures almacen == Registros(Guardar(clientes))
      ensures mensajeEscrito == old(mensajeEscrito)
    {
      mensajes := [];
      clienteSeleccionado := None;
      clientes := Filter(clientes, OtroId(id));
      GuardarNotificaciones();
      ghost var s1, a1 := SesionActual(), almacen;
      ActualizarContadorGlobal();
      assert SesionActual() == s1 && almacen == a1;
    }

    /** `getClienteNombre`: the open conversation's name, or "Cliente". */
    function GetClienteNombre(): (r: string)
      reads this
      ensures clienteSeleccionado.Some? && Buscar(clientes, clienteSeleccionado.value).Some? ==>
        r == Buscar(clientes, clienteSeleccionado.value).value.nombre
      ensures clienteSeleccionado.None? || Buscar(clientes, clienteSeleccionado.value).None? ==>
        r == NOMBRE_CLIENTE
    {
      match clienteSeleccionado
      case None => NOMBRE_CLIENTE
      case Some(id) =>
        match Buscar(clientes, id)
        case Some(c) => c.nombre
        case None => NOMBRE_CLIENTE
    }
  }
}
