/** ChatHistory: the bounded, ordered conversation log and its derived views. */
module History {
  import opened Wrappers
  import opened Messages

  /** The log keeps at most this many entries. */
  const MAX_MESSAGES: nat := 100

  /** Entries that are sent to the model endpoint: USER and ASSISTANT. */
  predicate Eligible(m: ChatMessage)
  {
    m.kind == User || m.kind == Assistant
  }

  /** The number of entries of kind `k`. */
  function CountKind(s: seq<ChatMessage>, k: MessageType): nat
  {
    if s == [] then 0 else (if s[0].kind == k then 1 else 0) + CountKind(s[1..], k)
  }

  lemma {:induction false} CountKindAppend(a: seq<ChatMessage>, b: seq<ChatMessage>, k: MessageType)
    ensures CountKind(a + b, k) == CountKind(a, k) + CountKind(b, k)
  {
    if a == [] {
      assert a + b == b;
    } else {
      assert (a + b)[0] == a[0] && (a + b)[1..] == a[1..] + b;
      CountKindAppend(a[1..], b, k);
    }
  }

  /** The index of the entry of kind `k` nearest the end, or -1 when there is none. */
  function LastIndexOfKind(s: seq<ChatMessage>, k: MessageType): (r: int)
    ensures -1 <= r < |s|
    ensures r == -1 ==> forall i :: 0 <= i < |s| ==> s[i].kind != k
    ensures r >= 0 ==> s[r].kind == k && forall i :: r < i < |s| ==> s[i].kind != k
  {
    if s == [] then -1
    else if s[|s| - 1].kind == k then |s| - 1
    else LastIndexOfKind(s[..|s| - 1], k)
  }

  /** removeTypingIndicator: the log without its last TYPING entry. */
  function WithoutLastTyping(s: seq<ChatMessage>): seq<ChatMessage>
  {
    var i := LastIndexOfKind(s, Typing);
    if i < 0 then s else s[..i] + s[i + 1..]
  }

  /** addMessage: drop the last TYPING entry, append, then evict the oldest entry when the
      bound is exceeded. */
  function AfterAdd(s: seq<ChatMessage>, m: ChatMessage): seq<ChatMessage>
  {
    var t := WithoutLastTyping(s) + [m];
    if |t| > MAX_MESSAGES then t[1..] else t
  }

  /** getApiMessages: the USER and ASSISTANT entries, in log order. */
  function ApiEligible(s: seq<ChatMessage>): (r: seq<ChatMessage>)
    ensures forall i :: 0 <= i < |r| ==> Eligible(r[i]) && r[i] in s
    ensures forall i :: 0 <= i < |s| && Eligible(s[i]) ==> s[i] in r
  {
    if s == [] then []
    else (if Eligible(s[0]) then [s[0]] else []) + ApiEligible(s[1..])
  }

  /** getRecentApiMessages(n): the whole list when it has at most `n` entries, otherwise its
      last `n`; always the suffix of length min(n, |api|). */
  function RecentWindow(api: seq<ChatMessage>, n: nat): (r: seq<ChatMessage>)
    ensures |r| == if |api| <= n then |api| else n
    ensures r == api[|api| - |r|..]
  {
    if |api| <= n then api else api[|api| - n..]
  }

  /** `a` is `b` with some entries deleted: the order of what is kept is preserved. */
  predicate Subsequence<T(==)>(a: seq<T>, b: seq<T>)
    decreases |b|
  {
    a == [] || (b != [] && ((a[0] == b[0] && Subsequence(a[1..], b[1..])) || Subsequence(a, b[1..])))
  }

  lemma {:induction false} SubsequenceRefl<T>(a: seq<T>)
    ensures Subsequence(a, a)
  {
    if a != [] {
      SubsequenceRefl(a[1..]);
    }
  }

  lemma {:induction false} SubsequenceDelete<T>(s: seq<T>, i: nat)
    requires i < |s|
    ensures Subsequence(s[..i] + s[i + 1..], s)
  {
    if i == 0 {
      assert s[..i] + s[i + 1..] == s[1..];
      SubsequenceRefl(s[1..]);
    } else {
      var d := s[..i] + s[i + 1..];
      assert d[0] == s[0];
      assert d[1..] == s[1..][..i - 1] + s[1..][i..];
      SubsequenceDelete(s[1..], i - 1);
    }
  }

  lemma {:induction false} SubsequenceSnoc<T>(a: seq<T>, b: seq<T>, x: T)
    requires Subsequence(a, b)
    ensures Subsequence(a + [x], b + [x])
    decreases |b|
  {
    if a == [] {
      if b == [] {
        SubsequenceRefl([x]);
      } else {
        assert (b + [x])[1..] == b[1..] + [x];
        SubsequenceSnoc(a, b[1..], x);
      }
    } else {
      assert (a + [x])[0] == a[0] && (a + [x])[1..] == a[1..] + [x];
      assert (b + [x])[0] == b[0] && (b + [x])[1..] == b[1..] + [x];
      if a[0] == b[0] && Subsequence(a[1..], b[1..]) {
        SubsequenceSnoc(a[1..], b[1..], x);
      } else {
        SubsequenceSnoc(a, b[1..], x);
      }
    }
  }

  lemma {:induction false} SubsequenceExtend<T>(a: seq<T>, b: seq<T>, x: T)
    requires Subsequence(a, b)
    ensures Subsequence(a, b + [x])
    decreases |b|
  {
    if a != [] {
      assert (b + [x])[0] == b[0] && (b + [x])[1..] == b[1..] + [x];
      if a[0] == b[0] && Subsequence(a[1..], b[1..]) {
        SubsequenceExtend(a[1..], b[1..], x);
      } else {
        SubsequenceExtend(a, b[1..], x);
      }
    }
  }

  lemma {:induction false} SubsequenceTail<T>(a: seq<T>, b: seq<T>)
    requires a != [] && Subsequence(a, b)
    ensures Subsequence(a[1..], b)
    decreases |b|
  {
    if a[0] == b[0] && Subsequence(a[1..], b[1..]) {
      if a[1..] != [] {
        assert b != [];
      }
    } else {
      SubsequenceTail(a, b[1..]);
    }
    if a[1..] != [] && !(a[0] == b[0] && Subsequence(a[1..], b[1..])) {
      assert Subsequence(a[1..], b[1..]);
    }
  }

  /** Dropping the last TYPING entry removes exactly one TYPING entry when there is one and
      changes nothing otherwise; every other entry keeps its place in the order. */
  lemma WithoutLastTypingEffect(s: seq<ChatMessage>)
    ensures CountKind(s, Typing) == 0 ==> WithoutLastTyping(s) == s
    ensures CountKind(s, Typing) > 0 ==>
      |WithoutLastTyping(s)| == |s| - 1 &&
      CountKind(WithoutLastTyping(s), Typing) == CountKind(s, Typing) - 1
    ensures Subsequence(WithoutLastTyping(s), s)
  {
    var i := LastIndexOfKind(s, Typing);
    if i < 0 {
      NoKindCount(s, Typing);
      SubsequenceRefl(s);
    } else {
      assert s == s[..i] + [s[i]] + s[i + 1..];
      CountKindAppend(s[..i] + [s[i]], s[i + 1..], Typing);
      CountKindAppend(s[..i], [s[i]], Typing);
      CountKindAppend(s[..i], s[i + 1..], Typing);
      SubsequenceDelete(s, i);
    }
  }

  lemma {:induction false} NoKindCount(s: seq<ChatMessage>, k: MessageType)
    requires forall i :: 0 <= i < |s| ==> s[i].kind != k
    ensures CountKind(s, k) == 0
  {
    if s != [] {
      NoKindCount(s[1..], k);
    }
  }

  /** addMessage keeps the log within MAX_MESSAGES entries, leaves the new message last, and
      leaves exactly one TYPING entry when the new message is one and none otherwise. */
  lemma AddMessageEffect(s: seq<ChatMessage>, m: ChatMessage)
    requires |s| <= MAX_MESSAGES && CountKind(s, Typing) <= 1
    ensures |AfterAdd(s, m)| <= MAX_MESSAGES
    ensures |AfterAdd(s, m)| > 0 && AfterAdd(s, m)[|AfterAdd(s, m)| - 1] == m
    ensures CountKind(AfterAdd(s, m), Typing) == if m.kind == Typing then 1 else 0
  {
    var kept := WithoutLastTyping(s);
    var t := kept + [m];
    WithoutLastTypingEffect(s);
    CountKindAppend(kept, [m], Typing);
    assert CountKind(kept, Typing) == 0;
    if |t| > MAX_MESSAGES {
      // nothing was removed, so the evicted head is not a TYPING entry
      assert t == [t[0]] + t[1..];
      CountKindAppend([t[0]], t[1..], Typing);
    }
  }

  /** addMessage removes at most two entries, the last TYPING entry and the evicted head, and
      keeps the relative order of all others, with the new message after them. */
  lemma AddMessageKeepsOrder(s: seq<ChatMessage>, m: ChatMessage)
    ensures Subsequence(AfterAdd(s, m), s + [m])
    ensures |AfterAdd(s, m)| >= |s| - 1
  {
    var kept := WithoutLastTyping(s);
    WithoutLastTypingEffect(s);
    SubsequenceSnoc(kept, s, m);
    if |kept + [m]| > MAX_MESSAGES {
      SubsequenceTail(kept + [m], s + [m]);
    }
  }

  /** USER, then TYPING, then ASSISTANT leaves the user entry and the reply, with no TYPING
      entry: the placeholder is replaced by the answer. */
  lemma TypingReplacedByReply(u: ChatMessage, t: ChatMessage, a: ChatMessage)
    requires u.kind == User && t.kind == Typing && a.kind == Assistant
    ensures AfterAdd(AfterAdd(AfterAdd([], u), t), a) == [u, a]
  {
    assert LastIndexOfKind([u], Typing) == -1;
    assert AfterAdd([], u) == [u];
    assert AfterAdd([u], t) == [u, t];
    assert LastIndexOfKind([u, t], Typing) == 1;
    assert WithoutLastTyping([u, t]) == [u];
  }

  lemma {:induction false} ApiEligibleAppend(a: seq<ChatMessage>, b: seq<ChatMessage>)
    ensures ApiEligible(a + b) == ApiEligible(a) + ApiEligible(b)
  {
    if a == [] {
      assert a + b == b;
    } else {
      assert (a + b)[0] == a[0] && (a + b)[1..] == a[1..] + b;
      ApiEligibleAppend(a[1..], b);
    }
  }

  /** The API view keeps the order of the log: it is the log with the SYSTEM and TYPING
      entries deleted. */
  lemma {:induction false} ApiEligibleOrdered(s: seq<ChatMessage>)
    ensures Subsequence(ApiEligible(s), s)
  {
    if s != [] {
      ApiEligibleOrdered(s[1..]);
      var rest := ApiEligible(s[1..]);
      if Eligible(s[0]) {
        assert ApiEligible(s) == [s[0]] + rest;
        assert ([s[0]] + rest)[1..] == rest;
      } else {
        assert ApiEligible(s) == rest;
        if rest != [] {
          assert Subsequence(rest, s[1..]);
        }
      }
    }
  }

  /** The conversation store. */
  class ChatHistory {
    var messages: seq<ChatMessage>

    /** The bound and the single-placeholder invariant. */
    ghost predicate Valid()
      reads this
    {
      |messages| <= MAX_MESSAGES && CountKind(messages, Typing) <= 1
    }

    constructor ()
      ensures Valid() && messages == []
    {
      messages := [];
    }

    /** removeTypingIndicator: scans from the end and removes the first TYPING entry met. */
    method RemoveTypingIndicator()
      modifies this
      ensures messages == WithoutLastTyping(old(messages))
    {
      var i := |messages| - 1;
      while i >= 0
        invariant -1 <= i < |messages|
        invariant messages == old(messages)
        invariant forall k :: i < k < |messages| ==> messages[k].kind != Typing
      {
        if messages[i].kind == Typing {
          messages := messages[..i] + messages[i + 1..];
          return;
        }
        i := i - 1;
      }
    }

    /** addMessage. */
    method AddMessage(message: ChatMessage)
      requires Valid()
      modifies this
      ensures Valid()
      ensures messages == AfterAdd(old(messages), message)
    {
      AddMessageEffect(messages, message);
      RemoveTypingIndicator();
      messages := messages + [message];
      if |messages| > MAX_MESSAGES {
        messages := messages[1..];
      }
    }

    /** getMessages: a copy, with the same entries in the same order. */
    method GetMessages() returns (copy: seq<ChatMessage>)
      ensures copy == messages
    {
      copy := messages;
    }

    /** clear. */
    method Clear()
      modifies this
      ensures Valid() && messages == []
    {
      messages := [];
    }

    /** getApiMessages: one pass over the log, keeping USER and ASSISTANT entries. */
    method GetApiMessages() returns (api: seq<ChatMessage>)
      ensures api == ApiEligible(messages)
    {
      api := [];
      for i := 0 to |messages|
        invariant api == ApiEligible(messages[..i])
      {
        ApiEligibleAppend(messages[..i], [messages[i]]);
        assert messages[..i + 1] == messages[..i] + [messages[i]];
        if messages[i].kind == User || messages[i].kind == Assistant {
          api := api + [messages[i]];
        }
      }
      assert messages[..|messages|] == messages;
    }

    /** getRecentApiMessages(maxMessages). */
    method GetRecentApiMessages(maxMessages: nat) returns (recent: seq<ChatMessage>)
      ensures recent == RecentWindow(ApiEligible(messages), maxMessages)
    {
      var api := GetApiMessages();
      if |api| <= maxMessages {
        return api;
      }
      recent := api[|api| - maxMessages..];
    }

    /** size. */
    function Size(): (n: nat)
      reads this
      ensures n == |messages|
    {
      |messages|
    }

    /** isEmpty: holds exactly when size() is 0. */
    predicate IsEmpty()
      reads this
      ensures IsEmpty() <==> Size() == 0
    {
      messages == []
    }

    /** getLastMessage: null exactly when the log is empty, otherwise its last entry. */
    function LastMessage(): (r: Option<ChatMessage>)
      reads this
      ensures r == None <==> Size() == 0
      ensures r != None ==> r.value == messages[|messages| - 1]
    {
      if messages == [] then None else Some(messages[|messages| - 1])
    }
  }
}
