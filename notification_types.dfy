/** The values the notification dispatcher routes: commands, backends, and the
    opaque tokens it receives from collaborators and passes on unexamined. */
module NotificationTypes {

  datatype Option<+T> = None | Some(value: T)

  datatype Result<+T, +E> = Ok(value: T) | Err(error: E)

  /** A value produced by a collaborator the dispatcher does not look into
      (an MBean server answer, a listener description, a config entry).
      Only its identity matters to the dispatcher. */
  datatype Opaque = Opaque(token: nat)

  /** The MBeanServerExecutor handed to dispatch; forwarded, never inspected. */
  datatype Executor = Executor(token: nat)

  /** A backend's default configuration: option name to opaque value. */
  type Config = map<string, Opaque>

  /** A notification backend: its mode name (getType) and its default
      configuration (getConfig). */
  datatype Backend = Backend(kind: string, config: Config)

  /** The mode name of the pull backend, the only backend the dispatcher wires in. */
  const PullMode: string := "pull"

  /** The six notification command types. */
  datatype CommandType = Register | Unregister | Add | Remove | Ping | List

  /** A decoded notification command, one variant per command type with the
      fields the dispatcher's actions read. */
  datatype Command =
    | RegisterCommand
    | UnregisterCommand(client: string)
    | AddCommand(client: string, mbean: string, mode: string,
                 filter: Option<seq<string>>, handback: Option<Opaque>)
    | RemoveCommand(client: string, handle: string)
    | PingCommand(client: string)
    | ListCommand(client: string)
  {
    /** The command's type, as getType() reports it. */
    function Type(): CommandType {
      match this
      case RegisterCommand => Register
      case UnregisterCommand(_) => Unregister
      case AddCommand(_, _, _, _, _) => Add
      case RemoveCommand(_, _) => Remove
      case PingCommand(_) => Ping
      case ListCommand(_) => List
    }
  }

  /** The constant name of a command type, as the enum prints it. */
  function TypeName(t: CommandType): string {
    match t
    case Register => "REGISTER"
    case Unregister => "UNREGISTER"
    case Add => "ADD"
    case Remove => "REMOVE"
    case Ping => "PING"
    case List => "LIST"
  }
}
