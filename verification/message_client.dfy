/** Outbound message construction: how `addressUsers`, `addressChannels` and `respond` turn a
    message into the envelope handed to the transport. */
module MessageClient {
  import opened Wrappers
  import opened Strings
  import opened Seqs
  import opened Envelopes

  const ApiVersion: string := "1"
  const SlackContentType: string := "application/x-atomist-slack+json"
  const PlainTextContentType: string := "text/plain"
  const SlackUserAgent: string := "slack"
  const RespondFromEventError: string := "Response messages are not supported for event handlers"

  /** A button bound to a command, as `buttonForCommand(button, command, parameters)` builds it. */
  datatype CommandButton = CommandButton(text: string, command: string, parameters: seq<Arg>)

  datatype Attachment = Attachment(fallback: string, text: string, actions: seq<CommandButton>)

  /** A plain-text message or a Slack message with attachments. */
  datatype Message = Text(text: string) | Slack(attachments: seq<Attachment>)

  /** A command binding of the envelope: the generated id, the command name and its parameters. */
  datatype Action = Action(id: string, command: string, parameters: seq<Arg>)

  datatype MessageOptions = MessageOptions(id: Option<string>)

  /** Recipients as callers pass them: one name or a list of names. */
  datatype Recipients = One(name: string) | Many(names: seq<string>)

  datatype OutboundEnvelope = OutboundEnvelope(
    apiVersion: string,
    correlationId: string,
    teamId: string,
    contentType: string,
    id: Option<string>,
    destinations: seq<Address>,
    actions: seq<Action>)

  /** A message client bound to the envelope its handler was invoked for. */
  datatype Client = EventClient(event: EventIncoming) | CommandClient(request: CommandIncoming)

  function ClientCorrelationId(c: Client): string {
    match c
    case EventClient(e) => e.correlationId
    case CommandClient(r) => r.correlationId
  }

  function ClientTeamId(c: Client): string {
    match c
    case EventClient(e) => e.teamId
    case CommandClient(r) => r.teamId
  }

  /** `clean`: recipients as a list of distinct non-empty names, each where it first occurs. */
  function Clean(r: Recipients): (names: seq<string>)
    ensures forall i :: 0 <= i < |names| ==> names[i] != ""
    ensures forall i, j :: 0 <= i < j < |names| ==> names[i] != names[j]
    ensures r.One? ==> names == (if r.name == "" then [] else [r.name])
    ensures r.Many? ==> IsSubsequence(names, r.names)
    ensures r.Many? ==> forall x :: x in names <==> x in r.names && x != ""
    ensures (&& r.Many? && (forall i :: 0 <= i < |r.names| ==> r.names[i] != "")
             && (forall i, j :: 0 <= i < j < |r.names| ==> r.names[i] != r.names[j])) ==> names == r.names
  {
    match r
    case One(n) => if n == "" then [] else [n]
    case Many(ns) =>
      DistinctNamesOrder(ns, {});
      DistinctNames(ns, {})
  }

  /** The non-empty names of `ns` not in `seen`, each at its first occurrence. */
  function DistinctNames(ns: seq<string>, seen: set<string>): (r: seq<string>)
    ensures forall i :: 0 <= i < |r| ==> r[i] != "" && r[i] !in seen
    ensures forall i, j :: 0 <= i < j < |r| ==> r[i] != r[j]
    ensures forall x :: x in r <==> x in ns && x != "" && x !in seen
    decreases |ns|
  {
    if |ns| == 0 then []
    else if ns[0] == "" || ns[0] in seen then
      var rest := DistinctNames(ns[1..], seen);
      assert forall x :: x in ns && x != ns[0] ==> x in ns[1..];
      rest
    else
      var rest := DistinctNames(ns[1..], seen + {ns[0]});
      var r := [ns[0]] + rest;
      assert r[1..] == rest;
      assert forall x :: x in ns && x != ns[0] ==> x in ns[1..];
      r
  }

  /** `DistinctNames` keeps the order of `ns`, and returns a list of distinct non-empty names
      unseen so far unchanged. */
  lemma {:induction false} DistinctNamesOrder(ns: seq<string>, seen: set<string>)
    ensures IsSubsequence(DistinctNames(ns, seen), ns)
    ensures ((forall i :: 0 <= i < |ns| ==> ns[i] != "" && ns[i] !in seen)
             && (forall i, j :: 0 <= i < j < |ns| ==> ns[i] != ns[j])) ==> DistinctNames(ns, seen) == ns
    decreases |ns|
  {
    if |ns| > 0 {
      var r := DistinctNames(ns, seen);
      if ns[0] == "" || ns[0] in seen {
        DistinctNamesOrder(ns[1..], seen);
      } else {
        DistinctNamesOrder(ns[1..], seen + {ns[0]});
        assert r[1..] == DistinctNames(ns[1..], seen + {ns[0]});
        if (forall i :: 0 <= i < |ns| ==> ns[i] != "" && ns[i] !in seen)
           && (forall i, j :: 0 <= i < j < |ns| ==> ns[i] != ns[j]) {
          forall i | 0 <= i < |ns[1..]|
            ensures ns[1..][i] != "" && ns[1..][i] !in seen + {ns[0]}
          {
            assert ns[1..][i] == ns[i + 1];
          }
          assert ns == [ns[0]] + ns[1..];
        }
      }
    }
  }

  /** The command buttons of a message, attachment by attachment, in order. */
  function ButtonsOf(attachments: seq<Attachment>): seq<CommandButton> {
    if |attachments| == 0 then [] else attachments[0].actions + ButtonsOf(attachments[1..])
  }

  function Buttons(msg: Message): seq<CommandButton> {
    match msg
    case Text(_) => []
    case Slack(attachments) => ButtonsOf(attachments)
  }

  /** The id given to the `index`-th button of a message: the lower-cased command, `-`, the index. */
  function ActionId(command: string, index: nat): string {
    ToLower(command) + "-" + NatToString(index)
  }

  /** The actions of the envelope: one per button, numbered from zero across the whole message. */
  function MapActions(msg: Message): (actions: seq<Action>)
    ensures |actions| == |Buttons(msg)|
    ensures forall i :: 0 <= i < |actions| ==>
              actions[i] == Action(ActionId(Buttons(msg)[i].command, i), Buttons(msg)[i].command,
                                   Buttons(msg)[i].parameters)
  {
    var bs := Buttons(msg);
    seq(|bs|, i requires 0 <= i < |bs| => Action(ActionId(bs[i].command, i), bs[i].command, bs[i].parameters))
  }

  /** An action id starts with the lower-cased command and `-`, and the text after its last `-` is
      the decimal index the action was given. */
  lemma ActionIdDecodes(command: string, index: nat)
    ensures StartsWith(ActionId(command, index), ToLower(command) + "-")
    ensures AllDigits(AfterLast(ActionId(command, index), '-'))
    ensures ParseNat(AfterLast(ActionId(command, index), '-')) == index
  {
    var digits := NatToString(index);
    assert '-' !in digits by {
      forall k | 0 <= k < |digits| ensures digits[k] != '-' {
        assert IsDigit(digits[k]);
      }
    }
    AfterLastOfJoin(ToLower(command), '-', digits);
    ParseNatToString(index);
    assert ActionId(command, index)[..|ToLower(command) + "-"|] == ToLower(command) + "-";
  }

  /** Two actions of one message never share an id, even when their buttons are identical. */
  lemma ActionIdsDistinct(msg: Message)
    ensures forall i, j :: 0 <= i < j < |MapActions(msg)| ==> MapActions(msg)[i].id != MapActions(msg)[j].id
  {
    var actions := MapActions(msg);
    forall i, j | 0 <= i < j < |actions|
      ensures actions[i].id != actions[j].id
    {
      ActionIdDecodes(Buttons(msg)[i].command, i);
      ActionIdDecodes(Buttons(msg)[j].command, j);
    }
  }

  function ContentType(msg: Message): string {
    if msg.Slack? then SlackContentType else PlainTextContentType
  }

  /** The envelope header every outbound message carries, with the given destinations. */
  function Envelope(client: Client, msg: Message, options: MessageOptions, destinations: seq<Address>): OutboundEnvelope {
    OutboundEnvelope(ApiVersion, ClientCorrelationId(client), ClientTeamId(client), ContentType(msg),
                     options.id, destinations, MapActions(msg))
  }

  function UserAddress(team: string, name: string): Address {
    Address(SlackUserAgent, SlackAddress(team, None, Some(ByName(name)), None))
  }

  function ChannelAddress(team: string, name: string): Address {
    Address(SlackUserAgent, SlackAddress(team, Some(ByName(name)), None, None))
  }

  /** The header fields are fixed or come from the originating envelope and the options. */
  predicate HeaderFrom(e: OutboundEnvelope, client: Client, msg: Message, options: MessageOptions) {
    && e.apiVersion == "1"
    && e.correlationId == ClientCorrelationId(client)
    && e.teamId == ClientTeamId(client)
    && e.contentType == (if msg.Slack? then "application/x-atomist-slack+json" else "text/plain")
    && e.id == options.id
    && e.actions == MapActions(msg)
  }

  /** `addressUsers(msg, team, users, options)`. */
  function AddressUsers(client: Client, msg: Message, team: string, users: Recipients, options: MessageOptions)
    : (e: OutboundEnvelope)
    ensures HeaderFrom(e, client, msg, options)
    ensures |e.destinations| == |Clean(users)|
    ensures forall i :: 0 <= i < |e.destinations| ==>
              e.destinations[i].userAgent == "slack" && e.destinations[i].slack.team == team
              && e.destinations[i].slack.user == Some(ByName(Clean(users)[i]))
              && e.destinations[i].slack.channel.None?
  {
    var names := Clean(users);
    Envelope(client, msg, options, seq(|names|, i requires 0 <= i < |names| => UserAddress(team, names[i])))
  }

  /** `addressChannels(msg, team, channels, options)`. */
  function AddressChannels(client: Client, msg: Message, team: string, channels: Recipients, options: MessageOptions)
    : (e: OutboundEnvelope)
    ensures HeaderFrom(e, client, msg, options)
    ensures |e.destinations| == |Clean(channels)|
    ensures forall i :: 0 <= i < |e.destinations| ==>
              e.destinations[i].userAgent == "slack" && e.destinations[i].slack.team == team
              && e.destinations[i].slack.channel == Some(ByName(Clean(channels)[i]))
              && e.destinations[i].slack.user.None?
  {
    var names := Clean(channels);
    Envelope(client, msg, options, seq(|names|, i requires 0 <= i < |names| => ChannelAddress(team, names[i])))
  }

  /** `respond(msg, options)`: a reply to the chat message a command came from; refused for events. */
  function Respond(client: Client, msg: Message, options: MessageOptions): (r: Result<OutboundEnvelope, string>)
    ensures r.Failure? <==> client.EventClient?
    ensures r.Failure? ==> r.error == RespondFromEventError
    ensures r.Success? ==> HeaderFrom(r.value, client, msg, options)
                           && r.value.destinations == [client.request.source]
  {
    match client
    case EventClient(_) => Failure(RespondFromEventError)
    case CommandClient(request) => Success(Envelope(client, msg, options, [request.source]))
  }

  /** The user names the destinations are addressed to, in order. */
  function UserNames(destinations: seq<Address>): seq<string> {
    if |destinations| == 0 then []
    else
      var rest := UserNames(destinations[1..]);
      match destinations[0].slack.user
      case Some(ByName(n)) => [n] + rest
      case _ => rest
  }

  /** The user names read back from the destinations of `addressUsers` are exactly the cleaned
      recipients: nothing empty, nothing repeated, nothing added, nothing reordered. */
  lemma {:induction false} AddressUsersRoundTrip(client: Client, msg: Message, team: string, users: Recipients,
                                                 options: MessageOptions)
    ensures UserNames(AddressUsers(client, msg, team, users, options).destinations) == Clean(users)
    ensures (&& users.Many? && (forall i :: 0 <= i < |users.names| ==> users.names[i] != "")
             && (forall i, j :: 0 <= i < j < |users.names| ==> users.names[i] != users.names[j])) ==>
              UserNames(AddressUsers(client, msg, team, users, options).destinations) == users.names
  {
    var names := Clean(users);
    UserNamesOfAddresses(team, names);
  }

  lemma {:induction false} UserNamesOfAddresses(team: string, names: seq<string>)
    ensures UserNames(seq(|names|, i requires 0 <= i < |names| => UserAddress(team, names[i]))) == names
    decreases |names|
  {
    var ds := seq(|names|, i requires 0 <= i < |names| => UserAddress(team, names[i]));
    if |names| > 0 {
      var tail := seq(|names| - 1, i requires 0 <= i < |names| - 1 => UserAddress(team, names[1..][i]));
      assert ds[1..] == tail;
      UserNamesOfAddresses(team, names[1..]);
    }
  }

  /** The channel names the destinations are addressed to, in order. */
  function ChannelNames(destinations: seq<Address>): seq<string> {
    if |destinations| == 0 then []
    else
      var rest := ChannelNames(destinations[1..]);
      match destinations[0].slack.channel
      case Some(ByName(n)) => [n] + rest
      case _ => rest
  }

  /** The channel names read back from the destinations of `addressChannels` are exactly the
      cleaned recipients, in order. */
  lemma {:induction false} AddressChannelsRoundTrip(client: Client, msg: Message, team: string, channels: Recipients,
                                                    options: MessageOptions)
    ensures ChannelNames(AddressChannels(client, msg, team, channels, options).destinations) == Clean(channels)
    ensures UserNames(AddressChannels(client, msg, team, channels, options).destinations) == []
  {
    ChannelNamesOfAddresses(team, Clean(channels));
  }

  lemma {:induction false} ChannelNamesOfAddresses(team: string, names: seq<string>)
    ensures ChannelNames(seq(|names|, i requires 0 <= i < |names| => ChannelAddress(team, names[i]))) == names
    ensures UserNames(seq(|names|, i requires 0 <= i < |names| => ChannelAddress(team, names[i]))) == []
    decreases |names|
  {
    var ds := seq(|names|, i requires 0 <= i < |names| => ChannelAddress(team, names[i]));
    if |names| > 0 {
      var tail := seq(|names| - 1, i requires 0 <= i < |names| - 1 => ChannelAddress(team, names[1..][i]));
      assert ds[1..] == tail;
      ChannelNamesOfAddresses(team, names[1..]);
    }
  }

  /** The test vectors: `clean` on a single name, a list and an empty name. */
  lemma CleanVectors()
    ensures Clean(One("test")) == ["test"]
    ensures Clean(Many(["test"])) == ["test"]
    ensures Clean(Many([""])) == []
  {
  }

  /** The button `buttonForCommand({text: "Foo"}, "HelloWorld", {name: "cd"})` in one attachment. */
  function HelloWorldMessage(): Message {
    Slack([Attachment("test", "test", [CommandButton("Foo", "HelloWorld", [Arg("name", "cd")])])])
  }

  /** `addressUsers(msg, "Txxxxxxx", ["cd", "rod"], {id: "123456"})` from an event handler. */
  lemma AddressUsersVector(event: EventIncoming)
    requires event.teamId == "Txxxxxxx"
    ensures var e := AddressUsers(EventClient(event), HelloWorldMessage(), "Txxxxxxx", Many(["cd", "rod"]),
                                  MessageOptions(Some("123456")));
            && e.apiVersion == "1" && e.correlationId == event.correlationId
            && e.contentType == "application/x-atomist-slack+json"
            && e.teamId == "Txxxxxxx" && e.id == Some("123456")
            && |e.destinations| == 2
            && e.destinations[0] == Address("slack", SlackAddress("Txxxxxxx", None, Some(ByName("cd")), None))
            && e.destinations[1] == Address("slack", SlackAddress("Txxxxxxx", None, Some(ByName("rod")), None))
            && e.actions == [Action("helloworld-0", "HelloWorld", [Arg("name", "cd")])]
  {
    HelloWorldActions();
    assert Clean(Many(["cd", "rod"])) == ["cd", "rod"];
  }

  /** `addressChannels(msg, "Txxxxxxx", ["general", "test"], {id: "123456"})` from an event handler. */
  lemma AddressChannelsVector(event: EventIncoming)
    requires event.teamId == "Txxxxxxx"
    ensures var e := AddressChannels(EventClient(event), HelloWorldMessage(), "Txxxxxxx", Many(["general", "test"]),
                                     MessageOptions(Some("123456")));
            && e.apiVersion == "1" && e.correlationId == event.correlationId
            && e.contentType == "application/x-atomist-slack+json"
            && e.teamId == "Txxxxxxx" && e.id == Some("123456")
            && |e.destinations| == 2
            && e.destinations[0] == Address("slack", SlackAddress("Txxxxxxx", Some(ByName("general")), None, None))
            && e.destinations[1] == Address("slack", SlackAddress("Txxxxxxx", Some(ByName("test")), None, None))
            && e.actions == [Action("helloworld-0", "HelloWorld", [Arg("name", "cd")])]
  {
    HelloWorldActions();
    assert Clean(Many(["general", "test"])) == ["general", "test"];
  }

  /** `respond(msg, {id: "123456"})` from a command that came from channel `C12`, thread `123`. */
  lemma RespondVector(request: CommandIncoming)
    requires request.teamId == "Txxxxxxx"
    requires request.source == Address("slack", SlackAddress("Txxxxxxx", Some(ById("C12")), None, Some("123")))
    ensures var r := Respond(CommandClient(request), HelloWorldMessage(), MessageOptions(Some("123456")));
            && r.Success?
            && r.value.correlationId == request.correlationId && r.value.teamId == "Txxxxxxx"
            && r.value.id == Some("123456")
            && r.value.destinations == [Address("slack", SlackAddress("Txxxxxxx", Some(ById("C12")), None, Some("123")))]
            && r.value.actions == [Action("helloworld-0", "HelloWorld", [Arg("name", "cd")])]
  {
    HelloWorldActions();
  }

  /** The single button of the test message becomes action `helloworld-0` of command `HelloWorld`
      with parameter `name` = `cd`. */
  lemma HelloWorldActions()
    ensures MapActions(HelloWorldMessage()) == [Action("helloworld-0", "HelloWorld", [Arg("name", "cd")])]
  {
    HelloWorldActionId();
    HelloWorldButtons();
  }

  lemma HelloWorldActionId()
    ensures ActionId("HelloWorld", 0) == "helloworld-0"
  {
    HelloWorldLower();
    assert NatToString(0) == "0";
  }

  lemma HelloWorldLower()
    ensures ToLower("HelloWorld") == "helloworld"
  {
    var lower := ToLower("HelloWorld");
    assert lower[0] == 'h' && lower[5] == 'w';
  }

  lemma HelloWorldButtons()
    ensures Buttons(HelloWorldMessage()) == [CommandButton("Foo", "HelloWorld", [Arg("name", "cd")])]
  {
  }
}
