/** The inbound envelopes the runtime dispatches, in the shape the websocket and cluster
    transports carry them. */
module Envelopes {
  import opened Wrappers
  import opened Json

  /** A `{ name, value }` pair: a parameter, mapped parameter or secret. */
  datatype Arg = Arg(name: string, value: string)

  /** A Slack channel or user, referenced by id or by name. */
  datatype SlackRef = ById(id: string) | ByName(name: string)

  /** The `slack` part of a source or destination. */
  datatype SlackAddress = SlackAddress(team: string, channel: Option<SlackRef>, user: Option<SlackRef>,
                                       threadTs: Option<string>)

  /** Where a message came from or goes to: `{ user_agent, slack }`. */
  datatype Address = Address(userAgent: string, slack: SlackAddress)

  /** A command request: the invoked command, its arguments, the workspace it runs for and the chat
      message it answers. */
  datatype CommandIncoming = CommandIncoming(
    apiVersion: string,
    correlationId: string,
    teamId: string,
    source: Address,
    command: string,
    parameters: seq<Arg>,
    mappedParameters: seq<Arg>,
    secrets: seq<Arg>)

  /** An event: its payload and the `extensions` naming the workspace, correlation and operation. */
  datatype EventIncoming = EventIncoming(
    data: Json,
    teamId: string,
    correlationId: string,
    operationName: string,
    secrets: seq<Arg>)

  datatype Incoming = Command(command: CommandIncoming) | Event(event: EventIncoming)

  /** The workspace an envelope belongs to: `team.id` of a command, `extensions.team_id` of an event. */
  function TeamIdOf(i: Incoming): string {
    match i
    case Command(c) => c.teamId
    case Event(e) => e.teamId
  }

  /** The correlation id an envelope carries. */
  function CorrelationIdOf(i: Incoming): string {
    match i
    case Command(c) => c.correlationId
    case Event(e) => e.correlationId
  }
}
