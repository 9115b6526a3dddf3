/** The outgoing side of the bot: each channel's message filters, applied in
    order to a reply, and the publish of the filtered reply on the topic of
    the channel's platform. */
module PlatformHandler {
  import opened Wrappers
  import opened Platform
  import opened Models

  /** The regular-expression engine, taken as given: whether a pattern
      compiles (and the error text when it does not), whether it matches a
      text, and the text with every match replaced. */
  datatype RegexEngine = RegexEngine(
    compile: string -> Result<(), string>,
    isMatch: (string, string) -> bool,
    replaceAll: (string, string, string) -> string)

  /** The one law the model relies on: a pattern that does not match leaves
      `replace_all` nothing to replace. */
  ghost predicate Lawful(engine: RegexEngine) {
    forall pattern, text, replacement ::
      !engine.isMatch(pattern, text) ==> engine.replaceAll(pattern, text, replacement) == text
  }

  const DefaultReplacement := "[Blocked]"
  const CompileErrorPrefix := "failed to compile message filter regex: "
  const DefaultTopicPrefix := "messages.outgoing."

  /** The replacement a non-blocking filter puts in place of a match. */
  function ReplacementOf(f: Filter): string {
    f.replacement.GetOr(DefaultReplacement)
  }

  /** Where a run of filters leaves the message: still going with a text, or
      stopped by a blocking filter (the message is then empty). */
  datatype Step = Continue(text: string) | Stop

  /** The filters in list order, each on the previous one's output. */
  function Run(engine: RegexEngine, filters: seq<Filter>, message: string): Step
    decreases |filters|
  {
    if filters == [] then Continue(message)
    else
      var f := filters[0];
      match engine.compile(f.regex)
      case Err(e) => Run(engine, filters[1..], CompileErrorPrefix + e)
      case Ok(_) =>
        if f.blockMessage then
          if engine.isMatch(f.regex, message) then Stop else Run(engine, filters[1..], message)
        else Run(engine, filters[1..], engine.replaceAll(f.regex, message, ReplacementOf(f)))
  }

  /** The message after filtering: a stop clears it. */
  function Filtered(engine: RegexEngine, filters: seq<Filter>, message: string): string {
    match Run(engine, filters, message)
    case Stop => ""
    case Continue(text) => text
  }

  /** Running two lists is running the first, then, unless it stopped, the
      second on its output. */
  lemma {:induction false} RunAppend(engine: RegexEngine, first: seq<Filter>, second: seq<Filter>, message: string)
    ensures Run(engine, first + second, message) ==
      match Run(engine, first, message)
      case Stop => Stop
      case Continue(text) => Run(engine, second, text)
    decreases |first|
  {
    if first == [] {
      assert first + second == second;
    } else {
      assert (first + second)[1..] == first[1..] + second;
      var f := first[0];
      match engine.compile(f.regex)
      case Err(e) =>
        RunAppend(engine, first[1..], second, CompileErrorPrefix + e);
      case Ok(_) =>
        if f.blockMessage {
          if !engine.isMatch(f.regex, message) {
            RunAppend(engine, first[1..], second, message);
          }
        } else {
          RunAppend(engine, first[1..], second, engine.replaceAll(f.regex, message, ReplacementOf(f)));
        }
    }
  }

  /** A blocking filter that matches empties the message, whatever follows it. */
  lemma BlockingMatchClears(engine: RegexEngine, f: Filter, rest: seq<Filter>, message: string)
    requires engine.compile(f.regex).Ok? && f.blockMessage && engine.isMatch(f.regex, message)
    ensures Filtered(engine, [f] + rest, message) == ""
  {
    assert ([f] + rest)[0] == f;
  }

  /** A blocking filter that does not match passes the message on as it is. */
  lemma BlockingMissPasses(engine: RegexEngine, f: Filter, rest: seq<Filter>, message: string)
    requires engine.compile(f.regex).Ok? && f.blockMessage && !engine.isMatch(f.regex, message)
    ensures Filtered(engine, [f] + rest, message) == Filtered(engine, rest, message)
  {
    assert ([f] + rest)[1..] == rest;
  }

  /** A replacing filter substitutes its replacement, `[Blocked]` by default,
      for every match; the next filter sees the result. */
  lemma ReplacingSubstitutes(engine: RegexEngine, f: Filter, rest: seq<Filter>, message: string)
    requires engine.compile(f.regex).Ok? && !f.blockMessage
    ensures Filtered(engine, [f] + rest, message) ==
      Filtered(engine, rest, engine.replaceAll(f.regex, message, f.replacement.GetOr("[Blocked]")))
  {
    assert ([f] + rest)[1..] == rest;
  }

  /** A pattern that does not compile replaces the message with the
      diagnostic, and the remaining filters go on with that text. */
  lemma BadPatternOverwrites(engine: RegexEngine, f: Filter, rest: seq<Filter>, message: string)
    requires engine.compile(f.regex).Err?
    ensures Filtered(engine, [f] + rest, message) ==
      Filtered(engine, rest, "failed to compile message filter regex: " + engine.compile(f.regex).error)
  {
    assert ([f] + rest)[1..] == rest;
  }

  /** Filters that all compile and none of which matches leave the message
      as it was. */
  lemma {:induction false} NoMatchNoChange(engine: RegexEngine, filters: seq<Filter>, message: string)
    requires Lawful(engine)
    requires forall i :: 0 <= i < |filters| ==>
      engine.compile(filters[i].regex).Ok? && !engine.isMatch(filters[i].regex, message)
    ensures Filtered(engine, filters, message) == message
    decreases |filters|
  {
    if filters != [] {
      var f := filters[0];
      assert engine.compile(f.regex).Ok? && !engine.isMatch(f.regex, message);
      assert forall i :: 0 <= i < |filters[1..]| ==> filters[1..][i] == filters[i + 1];
      NoMatchNoChange(engine, filters[1..], message);
    }
  }

  /** The text published for one reply. */
  datatype OutgoingMessage = OutgoingMessage(channelId: string, contents: string)

  datatype Publication = Publication(topic: string, message: OutgoingMessage)

  datatype PlatformHandlerError = Unsupported | Unconfigured | PlatformError(message: string) {
    function Display(): (s: string)
      ensures PlatformError? ==> s == "Platform error: " + message
    {
      match this
      case Unconfigured => "Platform is not configured"
      case Unsupported => "Remote message sending is not supported for this platform"
      case PlatformError(e) => "Platform error: " + e
    }
  }

  /** Holds the filters of every channel that has any, and the log of what
      was published. */
  class Handler {
    const engine: RegexEngine
    var filters: map<ChannelIdentifier, seq<Filter>>
    var published: seq<Publication>

    constructor (engine: RegexEngine, filters: map<ChannelIdentifier, seq<Filter>>)
      ensures this.engine == engine && this.filters == filters && published == []
    {
      this.engine := engine;
      this.filters := filters;
      published := [];
    }

    /** The filters for a channel; a channel without an entry has none. */
    function FiltersFor(channel: ChannelIdentifier): seq<Filter>
      reads this
    {
      if channel in filters then filters[channel] else []
    }

    /** `filter_message`: the loop over the channel's filters, which stops at
        the first blocking filter that matches. */
    method FilterMessage(message: string, channel: ChannelIdentifier) returns (result: string)
      ensures result == Filtered(engine, FiltersFor(channel), message)
      ensures channel !in filters ==> result == message
    {
      result := message;
      if channel !in filters {
        return;
      }
      var fs := filters[channel];
      var i := 0;
      while i < |fs|
        invariant 0 <= i <= |fs|
        invariant Filtered(engine, fs[i..], result) == Filtered(engine, fs, message)
      {
        var f := fs[i];
        assert fs[i..][1..] == fs[i + 1..];
        match engine.compile(f.regex) {
          case Ok(_) =>
            if f.blockMessage {
              if engine.isMatch(f.regex, result) {
                result := "";
                break;
              }
            } else {
              var replacement := if f.replacement.Some? then f.replacement.value else DefaultReplacement;
              result := engine.replaceAll(f.regex, result, replacement);
            }
          case Err(e) =>
            result := CompileErrorPrefix + e;
        }
        i := i + 1;
      }
      if i == |fs| {
        assert fs[i..] == [];
      }
    }

    /** `send_to_channel`: filter, then publish on the prefix (the
        environment's value or `messages.outgoing.`) followed by the
        platform name; without a platform nothing is published.  An emptied
        message is still published. */
    method SendToChannel(channel: ChannelIdentifier, msg: string, topicPrefix: Option<string>)
      returns (r: Result<(), PlatformHandlerError>)
      modifies this
      ensures filters == old(filters)
      ensures channel.PlatformName().None? ==> r == Err(Unsupported) && published == old(published)
      ensures channel.PlatformName().Some? ==>
        r == Ok(()) &&
        published == old(published) + [Publication(
          topicPrefix.GetOr("messages.outgoing.") + channel.PlatformName().value,
          OutgoingMessage(channel.ChannelName().GetOr(""), Filtered(engine, FiltersFor(channel), msg)))]
    {
      var filtered := FilterMessage(msg, channel);
      var prefix := if topicPrefix.Some? then topicPrefix.value else DefaultTopicPrefix;
      var platform := channel.PlatformName();
      if platform.None? {
        return Err(Unsupported);
      }
      var message := OutgoingMessage(channel.ChannelName().GetOr(""), filtered);
      published := published + [Publication(prefix + platform.value, message)];
      r := Ok(());
    }
  }
}
