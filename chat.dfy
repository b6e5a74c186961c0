/** src/pages/Chat/index.tsx: the advisor chat page. The page shows a sliding window
    over the conversation: each user message and each assistant reply is appended and
    the list cut back to its last `MAX_HISTORY` (30) entries, while the error bubble of a
    failed call is appended without the cut.

    `handleSend` awaits the assistant, so it is split at the `await`: `BeginSend` runs up
    to the call and `FinishSend` runs when the call settles. `Date.now()` is the input
    `now`. A ghost `log` records every message appended since the last reset. */
module Chat {
  import opened Wrappers
  import opened Types
  import Text

  const MaxHistory: nat := 30
  const LinkInterrupted: string := "Advisor link interrupted."

  function Min(a: int, b: int): int {
    if a <= b then a else b
  }

  /** `a` is the tail of `b`. */
  predicate IsSuffix<T(==)>(a: seq<T>, b: seq<T>) {
    |a| <= |b| && a == b[|b| - |a|..]
  }

  /** `s.slice(-MAX_HISTORY)`: the last thirty entries, in their order. */
  function Latest<T(==)>(s: seq<T>): (r: seq<T>)
    ensures |r| == Min(|s|, MaxHistory)
    ensures IsSuffix(r, s)
  {
    if |s| <= MaxHistory then s else s[|s| - MaxHistory..]
  }

  /** `[...prev, msg].slice(-MAX_HISTORY)`. */
  function Window(history: seq<ChatMessage>, msg: ChatMessage): (r: seq<ChatMessage>)
    ensures |r| == Min(|history| + 1, MaxHistory) && r[|r| - 1] == msg
    ensures IsSuffix(r, history + [msg])
    ensures |history| < MaxHistory ==> r == history + [msg]
  {
    Latest(history + [msg])
  }

  /** Cutting early changes nothing: the last thirty of (the last thirty of `s`, then `t`)
      are the last thirty of `s` then `t`. */
  lemma LatestAppend<T>(s: seq<T>, t: seq<T>)
    ensures Latest(Latest(s) + t) == Latest(s + t)
  {
    if |s| > MaxHistory {
      var k := |s| - MaxHistory;
      assert Latest(s) + t == (s + t)[k..];
      var u := (s + t)[k..];
      if |u| > MaxHistory {
        assert u[|u| - MaxHistory..] == (s + t)[|s + t| - MaxHistory..];
      }
    }
  }

  /** A suffix of a suffix is a suffix. */
  lemma SuffixTransitive<T>(a: seq<T>, b: seq<T>, c: seq<T>)
    requires IsSuffix(a, b) && IsSuffix(b, c)
    ensures IsSuffix(a, c)
  {
    assert c[|c| - |b|..][|b| - |a|..] == c[|c| - |a|..];
  }

  /** The page shows the tail of the conversation `log`: at least its last thirty
      messages and at most thirty-one. */
  predicate ShowsLatest(messages: seq<ChatMessage>, log: seq<ChatMessage>) {
    && IsSuffix(messages, log)
    && Min(|log|, MaxHistory) <= |messages| <= MaxHistory + 1
  }

  /** A windowed append keeps the page on the tail of the conversation. */
  lemma WindowShowsLatest(messages: seq<ChatMessage>, log: seq<ChatMessage>, msg: ChatMessage)
    requires ShowsLatest(messages, log)
    ensures ShowsLatest(Window(messages, msg), log + [msg])
    ensures |Window(messages, msg)| <= MaxHistory
  {
    var r := Window(messages, msg);
    assert IsSuffix(messages + [msg], log + [msg]) by {
      assert (log + [msg])[|log| + 1 - |messages| - 1..] == log[|log| - |messages|..] + [msg];
    }
    SuffixTransitive(r, messages + [msg], log + [msg]);
  }

  /** The uncapped error append keeps it too, as long as the page held at most thirty. */
  lemma ErrorShowsLatest(messages: seq<ChatMessage>, log: seq<ChatMessage>, msg: ChatMessage)
    requires ShowsLatest(messages, log) && |messages| <= MaxHistory
    ensures ShowsLatest(messages + [msg], log + [msg])
  {
    assert (log + [msg])[|log| + 1 - |messages| - 1..] == log[|log| - |messages|..] + [msg];
  }

  /** When no call fails, the page is exactly the last thirty messages of the conversation. */
  lemma {:induction false} WindowsAreLatest(start: seq<ChatMessage>, msgs: seq<ChatMessage>)
    ensures Replay(Latest(start), msgs) == Latest(start + msgs)
  {
    if msgs != [] {
      var init := msgs[..|msgs| - 1];
      var last := msgs[|msgs| - 1];
      assert msgs == init + [last];
      WindowsAreLatest(start, init);
      LatestAppend(start + init, [last]);
      assert start + init + [last] == start + msgs;
    }
  }

  /** The page after appending each of `msgs` in turn through the window. */
  function Replay(messages: seq<ChatMessage>, msgs: seq<ChatMessage>): seq<ChatMessage> {
    if msgs == [] then messages
    else Window(Replay(messages, msgs[..|msgs| - 1]), msgs[|msgs| - 1])
  }

  /** The id the page gives a message: a prefix and the clock. */
  function MessageId(prefix: string, now: nat): string {
    prefix + Text.NatToDecimal(now)
  }

  class ChatPage {
    var messages: seq<ChatMessage>
    var input: string
    var loading: bool
    ghost var log: seq<ChatMessage>

    ghost predicate Valid()
      reads this
    {
      ShowsLatest(messages, log) && (loading ==> |messages| <= MaxHistory)
    }

    constructor()
      ensures Valid() && messages == [] && input == "" && !loading
    {
      messages, input, loading := [], "", false;
      log := [];
    }

    /** Typing into the text box. */
    method SetInput(text: string)
      modifies this
      ensures input == text && messages == old(messages) && loading == old(loading) && log == old(log)
    {
      input := text;
    }

    /** `handleSend` up to the call: nothing happens when the trimmed input is empty or a
        call is pending; otherwise the trimmed input is appended as the user message
        through the window, the box is cleared and the page waits. `query` is the text
        sent to the assistant. */
    method BeginSend(now: nat) returns (query: Option<string>)
      requires Valid()
      modifies this
      ensures Valid()
      ensures Text.Trim(old(input)) == "" || old(loading) ==>
        query == None && messages == old(messages) && input == old(input) && loading == old(loading) && log == old(log)
      ensures Text.Trim(old(input)) != "" && !old(loading) ==>
        var msg := ChatMessage(MessageId("u-", now), User, Text.Trim(old(input)), now);
        && query == Some(Text.Trim(old(input)))
        && messages == Window(old(messages), msg) && log == old(log) + [msg]
        && input == "" && loading
    {
      var trimmed := Text.Trim(input);
      if trimmed == "" || loading {
        return None;
      }
      var msg := ChatMessage(MessageId("u-", now), User, trimmed, now);
      WindowShowsLatest(messages, log, msg);
      messages := Window(messages, msg);
      log := log + [msg];
      input := "";
      loading := true;
      query := Some(trimmed);
    }

    /** `handleSend` after the call: the reply is appended through the window; a failure
        appends its message (or the fallback) with no cut; the page stops waiting. */
    method FinishSend(reply: Outcome<string>, now: nat)
      requires Valid() && loading
      modifies this
      ensures Valid() && !loading && input == old(input)
      ensures reply.Resolved? ==>
        var msg := ChatMessage(MessageId("a-", now), Model, reply.value, now);
        messages == Window(old(messages), msg) && log == old(log) + [msg]
      ensures reply.Rejected? ==>
        var msg := ChatMessage(MessageId("e-", now), Model, MessageOr(reply.message, LinkInterrupted), now);
        messages == old(messages) + [msg] && log == old(log) + [msg]
    {
      match reply {
        case Resolved(text) =>
          var msg := ChatMessage(MessageId("a-", now), Model, text, now);
          WindowShowsLatest(messages, log, msg);
          messages := Window(messages, msg);
          log := log + [msg];
        case Rejected(message) =>
          var msg := ChatMessage(MessageId("e-", now), Model, MessageOr(message, LinkInterrupted), now);
          ErrorShowsLatest(messages, log, msg);
          messages := messages + [msg];
          log := log + [msg];
      }
      loading := false;
    }

    /** "Reset Session": the list is emptied (the SDK chat session is reset too). */
    method Reset()
      requires Valid()
      modifies this
      ensures Valid() && messages == [] && log == [] && input == old(input) && loading == old(loading)
    {
      messages := [];
      log := [];
    }
  }
}
