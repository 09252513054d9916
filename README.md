# Notification command dispatcher

A Dafny model of Jolokia's `NotificationDispatcher`. This is the entry point of the
notification subsystem. It routes the six notification commands (register,
unregister, add, remove, ping, list) to the listener delegate. The model covers
three parts:

- **The backend registry.** The constructor walks the hard-wired backends array.
  It puts each backend under its mode name (`backendMap`) and puts that backend's
  default configuration under the same name (`backendConfigMap`). The loop is
  `NotificationDispatcher.InitBackend`. It is proved against the folds
  `BackendsByType` and `ConfigsByType`, which apply `put` in array order. The
  `Registry*` lemmas state what the two maps then hold.
- **The closed dispatch table.** `commandMap` is an explicit
  `map<CommandType, Action>`. The constructor fills it with one action per command
  type. `Dispatch` looks up the action and fails with `NoDispatchAction` when there
  is none. The class invariant `Valid()` says nothing about the table, so that
  branch can still be reached in the model. `Route` is the specification of
  dispatch. For a command it gives either the one delegate call the command leads
  to or the error raised before any call. `CommandTableRoutes` proves that the
  constructed table never produces an internal error.
- **The six actions.** Each `Execute*` method makes one call on the delegate and
  builds the reply from the answer. Register replies `{id, backend}`, where
  `backend` is the whole config map. Add first resolves the backend by mode.
  Unregister, remove and ping reply null. List passes the delegate's answer
  through unchanged.

The listener delegate (`Delegate.NotificationListenerDelegate`) is not part of this
model. It is represented by a class that only records each call it receives, with
that call's arguments and answer, in `log`. Its answers are placeholders: a
numbered client id, or a numbered opaque token. The MBean server executor,
listener descriptions and configuration values are opaque tokens. The dispatcher
passes them along without examining them.

## Model

| member | source | states |
|---|---|---|
| `NotificationDispatch.NotificationDispatcher.constructor` | agent/core/src/main/java/org/jolokia/handler/notification/NotificationDispatcher.java:45-55 | After construction the registry holds exactly the pull backend and its config under "pull", the command table is `CommandTable` (one action per type), and the delegate is fresh with no calls received |
| `NotificationDispatch.NotificationDispatcher.InitBackend` | agent/core/src/main/java/org/jolokia/handler/notification/NotificationDispatcher.java:79-84 | Starting from empty maps, the loop leaves `backendMap` and `backendConfigMap` equal to the put-in-order folds over the backends array, and leaves the command table alone |
| `NotificationDispatch.RegistryKeys` | agent/core/src/main/java/org/jolokia/handler/notification/NotificationDispatcher.java:79-84 | Both registry maps have exactly the same key set: the mode names of the backends in the array |
| `NotificationDispatch.RegistryConfigs` | agent/core/src/main/java/org/jolokia/handler/notification/NotificationDispatcher.java:81-82 | The config registered under a mode is the `getConfig()` of the backend registered under that mode |
| `NotificationDispatch.RegistryMember` | agent/core/src/main/java/org/jolokia/handler/notification/NotificationDispatcher.java:80-81 | Every backend in `backendMap` is one from the array, filed under its own `getType()` |
| `NotificationDispatch.RegistryLastWins` | agent/core/src/main/java/org/jolokia/handler/notification/NotificationDispatcher.java:80-83 | The last backend of a given type in the array is the one registered for that type, together with its config (`put` overwrites) |
| `NotificationDispatch.RegistryDistinct` | agent/core/src/main/java/org/jolokia/handler/notification/NotificationDispatcher.java:79-84 | When the backends' types are distinct, every backend `b` of the array has `backendMap[b.getType()] == b` and `backendConfigMap[b.getType()] == b.getConfig()` |
| `NotificationDispatch.NotificationDispatcher.GetBackend` | agent/core/src/main/java/org/jolokia/handler/notification/NotificationDispatcher.java:206-212 | Succeeds exactly when some backend in the array has the mode as its type, and then returns `backendMap[mode]`, a backend of the array with that type. Otherwise it fails with the unknown-backend error, whose message is "No backend of type '<mode>' registered" |
| `NotificationDispatch.Route` | agent/core/src/main/java/org/jolokia/handler/notification/NotificationDispatcher.java:68-74 | Yields the internal "Internal: No dispatch action for … registered" error exactly when the command's type has no table entry, and the class-cast error exactly when the entry is an action declared for another type. A successful route always comes from an action declared for the command's type; with such an action the only possible error is the unknown backend. Register routes to `register()`, unregister to `unregister(executor, client)`, remove to `removeListener(executor, client, handle)`, ping to `refresh(client)` and list to `list(client)`. For add, an unknown-backend error is raised exactly when the mode is unregistered, and a known mode leads to `addListener(executor, backendMap[mode], command)` |
| `NotificationDispatch.CommandTableComplete` | agent/core/src/main/java/org/jolokia/handler/notification/NotificationDispatcher.java:49-54 | The constructed table has an entry for each of the six command types, and each entry's action is declared for that type |
| `NotificationDispatch.CommandTableRoutes` | agent/core/src/main/java/org/jolokia/handler/notification/NotificationDispatcher.java:68-73 | With the constructed table, dispatch fails only for an add with an unregistered mode, and then with the unknown-backend error. It never takes the internal-error branch |
| `NotificationDispatch.NotificationDispatcher.Dispatch` | agent/core/src/main/java/org/jolokia/handler/notification/NotificationDispatcher.java:68-74 | When `Route` gives an error, that error is returned and the delegate receives no call. Otherwise the delegate receives exactly the routed call, and the reply is built from that call's answer. The dispatcher's own maps are unchanged |
| `NotificationDispatch.NotificationDispatcher.ExecuteRegister` | agent/core/src/main/java/org/jolokia/handler/notification/NotificationDispatcher.java:104-111 | Exactly one `register()` call is made. The reply's `id` is that call's answer and its `backend` is the whole `backendConfigMap` |
| `NotificationDispatch.NotificationDispatcher.ExecuteUnregister` | agent/core/src/main/java/org/jolokia/handler/notification/NotificationDispatcher.java:118-121 | Forwards the executor and the command's client to `unregister`, and returns null |
| `NotificationDispatch.NotificationDispatcher.ExecuteAdd` | agent/core/src/main/java/org/jolokia/handler/notification/NotificationDispatcher.java:150-153 | An unregistered mode fails with the unknown-backend error before any delegate call. A registered mode makes exactly one `addListener` call, with `backendMap[mode]` and the same command, and returns its answer unchanged |
| `NotificationDispatch.NotificationDispatcher.ExecuteRemove` | agent/core/src/main/java/org/jolokia/handler/notification/NotificationDispatcher.java:163-166 | Forwards the executor, the command's client and its handle to `removeListener`, and returns null |
| `NotificationDispatch.NotificationDispatcher.ExecutePing` | agent/core/src/main/java/org/jolokia/handler/notification/NotificationDispatcher.java:180-183 | Forwards the command's client to `refresh`, and returns null |
| `NotificationDispatch.NotificationDispatcher.ExecuteList` | agent/core/src/main/java/org/jolokia/handler/notification/NotificationDispatcher.java:197-199 | Makes exactly one `list` call with the command's client, and returns its answer unchanged |

`NotificationDispatch.RegisterAddList` is a client of these contracts and has no
specification of its own. It constructs a dispatcher, registers a client, adds a
"pull" listener, tries an add with the mode "nonexistent", and lists. At each step
it checks what the contracts give.

## Left out

- The listener delegate's internals are left out, because `NotificationListenerDelegate` is not part of this model. That covers the client and listener store, handle generation, refresh timestamps and the staleness sweep. The stand-in class only records calls, and its answers are placeholders.
- `PullNotificationBackend` is not part of this model. Its mode name is taken to be "pull". Its default configuration is not shown, so the constructor takes it as a parameter.
- `NotificationCommandType` is not part of this model. It is taken to have exactly the six constants the dispatcher uses, and to print as the constant's name in the internal-error message.
- The checked exceptions `MBeanException`, `ReflectionException` and `IOException` are left out. They come from the MBean server and I/O inside the delegate. Only the dispatcher's own two `IllegalArgumentException` branches are modelled, as `NoDispatchAction` and `UnknownBackend`.
- The raw-typed `Dispatchable` interface becomes a match on an `Action` datatype. A table entry whose action is declared for another command class would throw `ClassCastException` in Java; it is modelled as the `ClassCast` error, without the JVM's message text. The constructed table has no such entry.
- JSON encoding is left out. The register reply is the `Registration(id, backend)` record, and the answers of `addListener` and `list` are opaque values.
- ExecuteRegister: the source puts the dispatcher's own `backendConfigMap` into the register reply by reference, and each config in it is the backend's own `getConfig()` object. Every holder of a register reply can therefore reach the live registry. The model copies the map by value, so it does not capture that aliasing. Its read-only registry (`unchanged(this)` in `Dispatch`) assumes that no caller mutates the `"backend"` map of a reply.
- Concurrency is left out. The dispatcher's maps are filled once in the constructor and never written again. In the model, `Dispatch` may modify only the delegate.
- The hard-wired backends array is an immutable `seq`. The source never writes to it.
