/** The notification command router: a registry of delivery backends keyed by
    mode name, a table from command type to action, and the six actions, each
    of which makes one call on the listener delegate and shapes its answer. */
module NotificationDispatch {
  import opened NotificationTypes
  import opened Delegate

  /** The six dispatch actions (RegisterAction, UnregisterAction, ...). */
  datatype Action = RegisterAction | UnregisterAction | AddAction | RemoveAction | PingAction | ListAction

  /** The command type an action is declared for: its Dispatchable type argument. */
  function Handles(a: Action): CommandType {
    match a
    case RegisterAction => Register
    case UnregisterAction => Unregister
    case AddAction => Add
    case RemoveAction => Remove
    case PingAction => Ping
    case ListAction => List
  }

  datatype Error =
    | NoDispatchAction(commandType: CommandType)
      // the table has no action for the command's type
    | UnknownBackend(mode: string)
      // an add command names a mode no backend is registered for
    | ClassCast(action: Action, commandType: CommandType)
      // the table maps a type to an action declared for another command class

  /** The message of the IllegalArgumentException each dispatcher error raises;
      a ClassCastException carries the JVM's own message, which is not modelled. */
  function Message(e: Error): Option<string> {
    match e
    case NoDispatchAction(t) => Some("Internal: No dispatch action for " + TypeName(t) + " registered")
    case UnknownBackend(mode) => Some("No backend of type '" + mode + "' registered")
    case ClassCast(_, _) => None
  }

  /** What dispatch returns: null, the register answer {id, backend}, or an
      answer of the delegate passed through unchanged. */
  datatype Reply = Null | Registration(id: string, backend: map<string, Config>) | Forwarded(value: Opaque)

  /** The command table the constructor builds. */
  const CommandTable: map<CommandType, Action> :=
    map[Register := RegisterAction, Unregister := UnregisterAction, Add := AddAction,
        Remove := RemoveAction, Ping := PingAction, List := ListAction]

  // ---------------------------------------------------------------------------
  // Backend registry

  /** The mode-to-backend map obtained by putting each backend under its type,
      in array order: a later backend of the same type replaces an earlier one. */
  function BackendsByType(bs: seq<Backend>): (m: map<string, Backend>)
  {
    if bs == [] then map[]
    else BackendsByType(bs[..|bs| - 1])[bs[|bs| - 1].kind := bs[|bs| - 1]]
  }

  /** The mode-to-config map obtained by putting each backend's config under its type. */
  function ConfigsByType(bs: seq<Backend>): (m: map<string, Config>)
  {
    if bs == [] then map[]
    else ConfigsByType(bs[..|bs| - 1])[bs[|bs| - 1].kind := bs[|bs| - 1].config]
  }

  /** The mode names of the given backends. */
  function Kinds(bs: seq<Backend>): (kinds: set<string>)
  {
    set b | b in bs :: b.kind
  }

  /** Both registry maps have exactly the backends' mode names as keys. */
  lemma {:induction false} RegistryKeys(bs: seq<Backend>)
    ensures BackendsByType(bs).Keys == Kinds(bs)
    ensures ConfigsByType(bs).Keys == Kinds(bs)
  {
    if bs != [] {
      var n := |bs| - 1;
      RegistryKeys(bs[..n]);
      assert bs == bs[..n] + [bs[n]];
      assert Kinds(bs) == Kinds(bs[..n]) + {bs[n].kind};
    }
  }

  /** The config registered under a mode is the config of the backend
      registered under that mode. */
  lemma {:induction false} RegistryConfigs(bs: seq<Backend>)
    ensures BackendsByType(bs).Keys == ConfigsByType(bs).Keys
    ensures forall mode | mode in BackendsByType(bs) ::
              ConfigsByType(bs)[mode] == BackendsByType(bs)[mode].config
  {
    RegistryKeys(bs);
    if bs != [] {
      RegistryConfigs(bs[..|bs| - 1]);
    }
  }

  /** Every registered backend comes from the array and sits under its own type. */
  lemma {:induction false} RegistryMember(bs: seq<Backend>, mode: string)
    requires mode in BackendsByType(bs)
    ensures BackendsByType(bs)[mode] in bs
    ensures BackendsByType(bs)[mode].kind == mode
  {
    var n := |bs| - 1;
    if bs[n].kind != mode {
      RegistryMember(bs[..n], mode);
      assert bs[..n] <= bs;
    }
  }

  /** The last backend of each type in the array is the one registered for it. */
  lemma {:induction false} RegistryLastWins(bs: seq<Backend>, i: nat)
    requires i < |bs|
    requires forall j | i < j < |bs| :: bs[j].kind != bs[i].kind
    ensures bs[i].kind in BackendsByType(bs)
    ensures BackendsByType(bs)[bs[i].kind] == bs[i]
    ensures bs[i].kind in ConfigsByType(bs)
    ensures ConfigsByType(bs)[bs[i].kind] == bs[i].config
  {
    var n := |bs| - 1;
    if i < n {
      var init := bs[..n];
      assert forall j | i < j < |init| :: init[j].kind != init[i].kind by {
        forall j | i < j < |init| ensures init[j].kind != init[i].kind {
          assert init[j] == bs[j];
        }
      }
      RegistryLastWins(init, i);
    }
  }

  /** When the backends' types are pairwise distinct, every backend is registered
      under its type together with its own config. */
  lemma {:induction false} RegistryDistinct(bs: seq<Backend>)
    requires forall i, j | 0 <= i < j < |bs| :: bs[i].kind != bs[j].kind
    ensures forall b | b in bs :: b.kind in BackendsByType(bs) && BackendsByType(bs)[b.kind] == b
    ensures forall b | b in bs :: b.kind in ConfigsByType(bs) && ConfigsByType(bs)[b.kind] == b.config
  {
    forall i | 0 <= i < |bs|
      ensures bs[i].kind in BackendsByType(bs) && BackendsByType(bs)[bs[i].kind] == bs[i]
      ensures bs[i].kind in ConfigsByType(bs) && ConfigsByType(bs)[bs[i].kind] == bs[i].config
    {
      RegistryLastWins(bs, i);
    }
  }

  // ---------------------------------------------------------------------------
  // Routing

  /** The delegate call a command leads to under the given command table and
      backend registry, or the error raised before any delegate call is made. */
  function Route(table: map<CommandType, Action>, registry: map<string, Backend>,
                 executor: Executor, command: Command): (r: Result<Request, Error>)
    ensures (r.Err? && r.error.NoDispatchAction?) <==> command.Type() !in table
    ensures r.Err? && r.error.NoDispatchAction? ==> r.error.commandType == command.Type()
    ensures r.Err? && r.error.NoDispatchAction? ==>
              Message(r.error) == Some("Internal: No dispatch action for " + TypeName(command.Type()) + " registered")
    ensures (r.Err? && r.error.ClassCast?) <==>
              command.Type() in table && Handles(table[command.Type()]) != command.Type()
    ensures r.Ok? ==> command.Type() in table && Handles(table[command.Type()]) == command.Type()
    ensures command.Type() in table && Handles(table[command.Type()]) == command.Type() ==>
              (r.Err? ==> r.error.UnknownBackend?)
    ensures r.Ok? && command.RegisterCommand? ==> r.value == RegisterClient
    ensures r.Ok? && command.UnregisterCommand? ==> r.value == UnregisterClient(executor, command.client)
    ensures r.Ok? && command.RemoveCommand? ==>
              r.value == Request.RemoveListener(executor, command.client, command.handle)
    ensures r.Ok? && command.PingCommand? ==> r.value == Request.Refresh(command.client)
    ensures r.Ok? && command.ListCommand? ==> r.value == ListListeners(command.client)
    ensures command.AddCommand? && command.Type() in table && table[command.Type()] == AddAction ==>
              (r == Err(UnknownBackend(command.mode)) <==> command.mode !in registry)
    ensures r.Ok? && command.AddCommand? ==>
              command.mode in registry && r.value == Request.AddListener(executor, registry[command.mode], command)
    ensures r.Err? && r.error.UnknownBackend? ==>
              command.AddCommand? && r.error.mode == command.mode && command.mode !in registry
  {
    var t := command.Type();
    if t !in table then Err(NoDispatchAction(t))
    else if Handles(table[t]) != t then Err(ClassCast(table[t], t))
    else match command
      case RegisterCommand => Ok(RegisterClient)
      case UnregisterCommand(client) => Ok(UnregisterClient(executor, client))
      case AddCommand(_, _, mode, _, _) =>
        if mode in registry then Ok(Request.AddListener(executor, registry[mode], command))
        else Err(UnknownBackend(mode))
      case RemoveCommand(client, handle) => Ok(Request.RemoveListener(executor, client, handle))
      case PingCommand(client) => Ok(Request.Refresh(client))
      case ListCommand(client) => Ok(ListListeners(client))
  }

  /** The reply an action builds from the delegate's answer. */
  function Shape(call: Call, configs: map<string, Config>): (reply: Reply)
    requires Answers(call.request, call.answer)
  {
    match call.request
    case RegisterClient => Registration(call.answer.id, configs)
    case AddListener(_, _, _) => Forwarded(call.answer.value)
    case ListListeners(_) => Forwarded(call.answer.value)
    case _ => Null
  }

  /** The constructed table holds an action for every command type, each
      declared for that type. */
  lemma CommandTableComplete(t: CommandType)
    ensures t in CommandTable && Handles(CommandTable[t]) == t
  {
  }

  /** With the constructed table, routing fails only for an add command whose
      mode has no backend: never with an internal error. */
  lemma CommandTableRoutes(registry: map<string, Backend>, executor: Executor, command: Command)
    ensures Route(CommandTable, registry, executor, command).Err? <==>
              command.AddCommand? && command.mode !in registry
    ensures Route(CommandTable, registry, executor, command).Err? ==>
              Route(CommandTable, registry, executor, command).error == UnknownBackend(command.mode)
  {
  }

  // ---------------------------------------------------------------------------
  // The dispatcher

  class NotificationDispatcher {
    /** The hard-wired backends. */
    const backends: seq<Backend>
    /** Mode name to backend, and mode name to that backend's default config. */
    var backendMap: map<string, Backend>
    var backendConfigMap: map<string, Config>
    /** Command type to the action that executes it. */
    var commandMap: map<CommandType, Action>
    const listenerDelegate: NotificationListenerDelegate

    /** The registry maps are the ones the backends array determines. */
    ghost predicate Valid()
      reads this
    {
      && backendMap == BackendsByType(backends)
      && backendConfigMap == ConfigsByType(backends)
    }

    /** Wires in the pull backend (whose default config is `pullConfig`), a
        fresh delegate and one action per command type. */
    constructor (pullConfig: Config)
      ensures Valid()
      ensures backends == [Backend(PullMode, pullConfig)]
      ensures backendMap == map[PullMode := Backend(PullMode, pullConfig)]
      ensures backendConfigMap == map[PullMode := pullConfig]
      ensures commandMap == CommandTable
      ensures fresh(listenerDelegate) && listenerDelegate.log == []
    {
      backends := [Backend(PullMode, pullConfig)];
      backendMap := map[];
      backendConfigMap := map[];
      commandMap := map[];
      listenerDelegate := new NotificationListenerDelegate();
      new;
      InitBackend();
      assert backends[..0] == [];
      commandMap := commandMap[Register := RegisterAction];
      commandMap := commandMap[Unregister := UnregisterAction];
      commandMap := commandMap[Add := AddAction];
      commandMap := commandMap[Remove := RemoveAction];
      commandMap := commandMap[Ping := PingAction];
      commandMap := commandMap[List := ListAction];
    }

    /** Puts every backend, and its config, under its type. */
    method InitBackend()
      requires backendMap == map[] && backendConfigMap == map[]
      modifies this
      ensures Valid()
      ensures commandMap == old(commandMap)
    {
      for i := 0 to |backends|
        invariant backendMap == BackendsByType(backends[..i])
        invariant backendConfigMap == ConfigsByType(backends[..i])
        invariant commandMap == old(commandMap)
      {
        var backend := backends[i];
        backendMap := backendMap[backend.kind := backend];
        backendConfigMap := backendConfigMap[backend.kind := backend.config];
        assert backends[..i + 1][..i] == backends[..i];
      }
      assert backends[..|backends|] == backends;
    }

    /** Looks up the backend for a mode. */
    function GetBackend(mode: string): (r: Result<Backend, Error>)
      reads this
      requires Valid()
      ensures r.Ok? <==> mode in Kinds(backends)
      ensures r.Ok? ==> mode in backendMap && r.value == backendMap[mode]
      ensures r.Ok? ==> r.value in backends && r.value.kind == mode
      ensures r.Err? ==> r.error == UnknownBackend(mode)
      ensures r.Err? ==> Message(r.error) == Some("No backend of type '" + mode + "' registered")
    {
      RegistryKeys(backends);
      if mode in backendMap then
        RegistryMember(backends, mode);
        Ok(backendMap[mode])
      else
        Err(UnknownBackend(mode))
    }

    /** Looks up the action for the command's type and executes it. The
        dispatcher's own maps are left as they are. */
    method Dispatch(executor: Executor, command: Command) returns (r: Result<Reply, Error>)
      requires Valid()
      modifies listenerDelegate
      ensures Valid() && unchanged(this)
      ensures Route(commandMap, backendMap, executor, command).Err? ==>
                && r == Err(Route(commandMap, backendMap, executor, command).error)
                && listenerDelegate.log == old(listenerDelegate.log)
      ensures Route(commandMap, backendMap, executor, command).Ok? ==>
                && Delegated(old(listenerDelegate.log), listenerDelegate.log,
                             Route(commandMap, backendMap, executor, command).value)
                && r == Ok(Shape(listenerDelegate.log[|listenerDelegate.log| - 1], backendConfigMap))
    {
      var t := command.Type();
      if t !in commandMap {
        return Err(NoDispatchAction(t));
      }
      var action := commandMap[t];
      if Handles(action) != t {
        return Err(ClassCast(action, t));
      }
      RegistryKeys(backends);
      match action
      case RegisterAction => r := ExecuteRegister(executor, command);
      case UnregisterAction => r := ExecuteUnregister(executor, command);
      case AddAction => r := ExecuteAdd(executor, command);
      case RemoveAction => r := ExecuteRemove(executor, command);
      case PingAction => r := ExecutePing(executor, command);
      case ListAction => r := ExecuteList(executor, command);
    }

    /** Registers a new client; answers its id with the configs of all backends. */
    method ExecuteRegister(executor: Executor, command: Command) returns (r: Result<Reply, Error>)
      requires command.RegisterCommand?
      modifies listenerDelegate
      ensures r.Ok? && r.value.Registration? && r.value.backend == backendConfigMap
      ensures listenerDelegate.log == old(listenerDelegate.log) + [Call(RegisterClient, ClientId(r.value.id))]
    {
      var id := listenerDelegate.Register();
      r := Ok(Registration(id, backendConfigMap));
    }

    /** Unregisters the command's client. */
    method ExecuteUnregister(executor: Executor, command: Command) returns (r: Result<Reply, Error>)
      requires command.UnregisterCommand?
      modifies listenerDelegate
      ensures r == Ok(Null)
      ensures listenerDelegate.log == old(listenerDelegate.log) + [Call(UnregisterClient(executor, command.client), Void)]
    {
      listenerDelegate.Unregister(executor, command.client);
      r := Ok(Null);
    }

    /** Resolves the backend for the command's mode, then adds the listener. */
    method ExecuteAdd(executor: Executor, command: Command) returns (r: Result<Reply, Error>)
      requires Valid() && command.AddCommand?
      modifies listenerDelegate
      ensures command.mode !in Kinds(backends) ==>
                r == Err(UnknownBackend(command.mode)) && listenerDelegate.log == old(listenerDelegate.log)
      ensures command.mode in Kinds(backends) ==>
                && command.mode in backendMap
                && r.Ok? && r.value.Forwarded?
                && listenerDelegate.log == old(listenerDelegate.log) +
                     [Call(Request.AddListener(executor, backendMap[command.mode], command), Value(r.value.value))]
    {
      var backend := GetBackend(command.mode);
      if backend.Err? {
        return Err(backend.error);
      }
      var result := listenerDelegate.AddListener(executor, backend.value, command);
      r := Ok(Forwarded(result));
    }

    /** Removes the listener the command's handle names. */
    method ExecuteRemove(executor: Executor, command: Command) returns (r: Result<Reply, Error>)
      requires command.RemoveCommand?
      modifies listenerDelegate
      ensures r == Ok(Null)
      ensures listenerDelegate.log == old(listenerDelegate.log) +
                [Call(Request.RemoveListener(executor, command.client, command.handle), Void)]
    {
      listenerDelegate.RemoveListener(executor, command.client, command.handle);
      r := Ok(Null);
    }

    /** Refreshes the command's client. */
    method ExecutePing(executor: Executor, command: Command) returns (r: Result<Reply, Error>)
      requires command.PingCommand?
      modifies listenerDelegate
      ensures r == Ok(Null)
      ensures listenerDelegate.log == old(listenerDelegate.log) + [Call(Request.Refresh(command.client), Void)]
    {
      listenerDelegate.Refresh(command.client);
      r := Ok(Null);
    }

    /** Lists the command's client's listeners, passing the delegate's answer through. */
    method ExecuteList(executor: Executor, command: Command) returns (r: Result<Reply, Error>)
      requires command.ListCommand?
      modifies listenerDelegate
      ensures r.Ok? && r.value.Forwarded?
      ensures listenerDelegate.log == old(listenerDelegate.log) + [Call(ListListeners(command.client), Value(r.value.value))]
    {
      var result := listenerDelegate.List(command.client);
      r := Ok(Forwarded(result));
    }
  }

  /** A client of the dispatcher: register, add a pull listener, add one with an
      unknown mode, then list; what each step returns follows from the contracts. */
  method RegisterAddList(pullConfig: Config, executor: Executor)
  {
    var dispatcher := new NotificationDispatcher(pullConfig);
    var registered := dispatcher.Dispatch(executor, RegisterCommand);
    assert registered.Ok? && registered.value == Registration(registered.value.id, map[PullMode := pullConfig]);
    var client := registered.value.id;

    var added := dispatcher.Dispatch(executor, AddCommand(client, "java.lang:type=Memory", PullMode, None, None));
    assert added.Ok? && added.value.Forwarded?;
    assert dispatcher.listenerDelegate.log[1].request
      == Request.AddListener(executor, Backend(PullMode, pullConfig), AddCommand(client, "java.lang:type=Memory", PullMode, None, None));

    var rejected := dispatcher.Dispatch(executor, AddCommand(client, "java.lang:type=Memory", "nonexistent", None, None));
    assert rejected == Err(UnknownBackend("nonexistent"));
    assert |dispatcher.listenerDelegate.log| == 2;

    var listed := dispatcher.Dispatch(executor, ListCommand(client));
    assert listed.Ok? && listed.value.Forwarded?;
    assert dispatcher.listenerDelegate.log[2].request == ListListeners(client);
  }
}
