/** The commands of the protocol, and what their execution on the server returns. */
module Commands {
  datatype CommandName = ListName | CreateName | AttachName | DetachName | PromptName | SteerName | AbortName | SetModelName | SetThinkingName

  datatype Command =
    | ListSessions
    | CreateSession(name: string)
    | AttachSession(sessionId: string)
    | DetachSession(sessionId: string)
    | PromptSession(sessionId: string, text: string)
    | SteerSession(sessionId: string, text: string)
    | AbortSession(sessionId: string)
    | SetModel(sessionId: string, model: string)
    | SetThinking(sessionId: string, level: string)

  function NameOf(command: Command): CommandName {
    match command
    case ListSessions => ListName
    case CreateSession(_) => CreateName
    case AttachSession(_) => AttachName
    case DetachSession(_) => DetachName
    case PromptSession(_, _) => PromptName
    case SteerSession(_, _) => SteerName
    case AbortSession(_) => AbortName
    case SetModel(_, _) => SetModelName
    case SetThinking(_, _) => SetThinkingName
  }

  type Snapshot = string

  /** What a result carries besides the name of its command. */
  datatype CommandResult =
    | Sessions(command: CommandName, sessions: seq<string>)
    | Session(command: CommandName, session: Snapshot)
    | Detached(command: CommandName, sessionId: string)

  /** What a service has to say when a command is executed. */
  datatype Answer = Answer(sessions: seq<string>, session: Snapshot)

  /** executeCommand(), once what it awaits has succeeded. */
  function ExecuteCommand(command: Command, answer: Answer): (r: CommandResult)
    ensures r.command == NameOf(command)
    ensures r.Sessions? <==> command.ListSessions?
    ensures r.Detached? <==> command.DetachSession?
  {
    match command
    case ListSessions => Sessions(ListName, answer.sessions)
    case CreateSession(_) => Session(CreateName, answer.session)
    case AttachSession(_) => Session(AttachName, answer.session)
    case DetachSession(sessionId) => Detached(DetachName, sessionId)
    case PromptSession(_, _) => Session(PromptName, answer.session)
    case SteerSession(_, _) => Session(SteerName, answer.session)
    case AbortSession(_) => Session(AbortName, answer.session)
    case SetModel(_, _) => Session(SetModelName, answer.session)
    case SetThinking(_, _) => Session(SetThinkingName, answer.session)
  }
}
