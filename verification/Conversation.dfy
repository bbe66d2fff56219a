/** A bounded conversation history that pins a system message at its head. */
module Conversation {
  import opened Prelude
  import opened Chat

  predicate IsSystem(m: ChatMessage) { m.role.System? }

  /** Drop the oldest message, or the second oldest behind a system message, until the
      limit is met or only a system message is left. */
  function Trimmed(ms: seq<ChatMessage>, max: nat): seq<ChatMessage>
    decreases |ms|
  {
    if |ms| <= max then ms
    else if !IsSystem(ms[0]) then Trimmed(ms[1..], max)
    else if |ms| > 1 then Trimmed([ms[0]] + ms[2..], max)
    else ms
  }

  class ConversationMemory {
    var messages: seq<ChatMessage>
    const maxMessages: nat

    constructor (max: nat)
      ensures messages == [] && maxMessages == max
    {
      messages, maxMessages := [], max;
    }

    method Add(m: ChatMessage)
      modifies this
      ensures messages == Trimmed(old(messages) + [m], maxMessages)
    {
      messages := messages + [m];
      while |messages| > maxMessages
        invariant Trimmed(messages, maxMessages) == Trimmed(old(messages) + [m], maxMessages)
        decreases |messages|
      {
        if IsSystem(messages[0]) {
          if |messages| > 1 {
            messages := [messages[0]] + messages[2..];
          } else {
            break;
          }
        } else {
          messages := messages[1..];
        }
      }
    }
  }

  /** What is stored after all of `history` has been added to an empty memory. */
  function Stored(history: seq<ChatMessage>, max: nat): seq<ChatMessage> {
    if history == [] then [] else Trimmed(Stored(history[..|history| - 1], max) + [history[|history| - 1]], max)
  }

  /** Index of the first system message, or the length. */
  function FirstSystem(history: seq<ChatMessage>): (i: nat)
    ensures i <= |history| && (i < |history| ==> IsSystem(history[i])) && forall k | 0 <= k < i :: !IsSystem(history[k])
  {
    if history == [] then 0 else
    var n := |history| - 1;
    var i := FirstSystem(history[..n]);
    if i < n then i else if IsSystem(history[n]) then n else n + 1
  }

  /** The first system message has been overtaken by the limit. */
  predicate Pinned(history: seq<ChatMessage>, max: nat) {
    var i := FirstSystem(history);
    i < |history| && |history| - i > max
  }

  /** The stored messages in closed form: the newest ones, or the first system message ever
      added and the newest ones behind it. */
  function Kept(history: seq<ChatMessage>, max: nat): seq<ChatMessage> {
    if !Pinned(history, max) then Newest(history, max)
    else [history[FirstSystem(history)]] + if max == 0 then [] else Newest(history, max - 1)
  }

  lemma FirstSystemAppend(h: seq<ChatMessage>, m: ChatMessage)
    ensures FirstSystem(h + [m]) ==
            if FirstSystem(h) < |h| then FirstSystem(h) else if IsSystem(m) then |h| else |h| + 1
  {
  }

  /** A full memory that gains a message loses the oldest unpinned one. */
  lemma TrimPlain(ms: seq<ChatMessage>, m: ChatMessage, max: nat)
    requires |ms| == max > 0 && !IsSystem(ms[0])
    ensures Trimmed(ms + [m], max) == (ms + [m])[1..]
  {
  }

  lemma TrimPinned(s: ChatMessage, ms: seq<ChatMessage>, m: ChatMessage, max: nat)
    requires |ms| + 1 == max && IsSystem(s)
    ensures Trimmed([s] + ms + [m], max) == [s] + (ms + [m])[1..]
  {
  }

  lemma NewestAppend(h: seq<ChatMessage>, m: ChatMessage, n: nat)
    requires n <= |h|
    ensures Newest(h + [m], n) == (Newest(h, n) + [m])[1..]
  {}

  lemma KeptGrowsPinned(h: seq<ChatMessage>, m: ChatMessage, max: nat)
    requires max > 0 && Pinned(h, max)
    ensures Trimmed(Kept(h, max) + [m], max) == Kept(h + [m], max)
  {
  }

  lemma KeptGrowsFull(h: seq<ChatMessage>, m: ChatMessage, max: nat)
    requires max > 0 && !Pinned(h, max) && |h| >= max
    ensures Trimmed(Kept(h, max) + [m], max) == Kept(h + [m], max)
  {
    FirstSystemAppend(h, m);
    var ms, i := Newest(h, max), |h| - max;
    assert ms[0] == h[i];
    if IsSystem(h[i]) {
      assert FirstSystem(h) == i;
      assert ms == [h[i]] + Newest(h, max - 1);
      TrimPinned(h[i], Newest(h, max - 1), m, max);
      NewestAppend(h, m, max - 1);
    } else {
      assert FirstSystem(h) != i;
      TrimPlain(ms, m, max);
      NewestAppend(h, m, max);
    }
  }

  lemma KeptGrows(h: seq<ChatMessage>, m: ChatMessage, max: nat)
    requires max > 0
    ensures Trimmed(Kept(h, max) + [m], max) == Kept(h + [m], max)
  {
    if Pinned(h, max) {
      KeptGrowsPinned(h, m, max);
    } else if |h| < max {
      FirstSystemAppend(h, m);
      assert Kept(h, max) + [m] == h + [m];
    } else {
      KeptGrowsFull(h, m, max);
    }
  }

  lemma KeptGrowsFromZero(h: seq<ChatMessage>, m: ChatMessage)
    ensures Trimmed(Kept(h, 0) + [m], 0) == Kept(h + [m], 0)
  {
  }

  /** For every history and every limit. */
  lemma {:induction false} StoredIsKept(history: seq<ChatMessage>, max: nat)
    ensures Stored(history, max) == Kept(history, max)
  {
    if history != [] {
      var h, m := history[..|history| - 1], history[|history| - 1];
      assert history == h + [m];
      StoredIsKept(h, max);
      if max > 0 { KeptGrows(h, m, max); } else { KeptGrowsFromZero(h, m); }
    }
  }

  /** The limit holds exactly when it is positive or no system message was ever added. */
  lemma LimitExactly(history: seq<ChatMessage>, max: nat)
    ensures |Stored(history, max)| <= max <==> max > 0 || forall m | m in history :: !IsSystem(m)
  {
    StoredIsKept(history, max);
    var i := FirstSystem(history);
    if i < |history| {
      assert history[i] in history;
    }
  }

  /** A system message at the head is never evicted, whatever is added later. */
  lemma {:induction false} HeadStays(history: seq<ChatMessage>, more: seq<ChatMessage>, max: nat)
    requires Stored(history, max) != [] && IsSystem(Stored(history, max)[0])
    ensures Stored(history + more, max) != [] && Stored(history + more, max)[0] == Stored(history, max)[0]
    decreases |more|
  {
    if more == [] {
      assert history + more == history;
    } else {
      var rest := more[..|more| - 1];
      HeadStays(history, rest, max);
      assert (history + more)[..|history + more| - 1] == history + rest;
      TrimKeepsHead(Stored(history + rest, max) + [more[|more| - 1]], max);
    }
  }

  lemma {:induction false} TrimKeepsHead(ms: seq<ChatMessage>, max: nat)
    requires ms != [] && IsSystem(ms[0])
    ensures Trimmed(ms, max) != [] && Trimmed(ms, max)[0] == ms[0]
    decreases |ms|
  {
    if |ms| > max && |ms| > 1 {
      TrimKeepsHead([ms[0]] + ms[2..], max);
    }
  }
}
