/** Chat messages as the upstream receives them, and the pairing rule it enforces. */
module Chat {
  import opened Common

  datatype Role = System | User | Assistant | Tool | OtherRole(name: string)
  datatype Part = Text(text: string) | Image(url: string)
  datatype Content = Plain(text: string) | Parts(parts: seq<Part>)
  datatype Call = Call(id: string, name: string, args: string)

  /** calls is empty for a message without `tool_calls`; answers is `tool_call_id`. */
  datatype Message = Message(role: Role, content: Content, calls: seq<Call>, answers: Option<string>, reasoning: string)

  predicate HasCalls(m: Message) {
    m.role == Assistant && m.calls != []
  }

  function CallIds(calls: seq<Call>): seq<Option<string>> {
    seq(|calls|, i requires 0 <= i < |calls| => Some(calls[i].id))
  }

  function AnswerIds(ms: seq<Message>): seq<Option<string>> {
    seq(|ms|, i requires 0 <= i < |ms| => ms[i].answers)
  }

  /** One tool message for each call, in any order. */
  ghost predicate Answers(tools: seq<Message>, calls: seq<Call>) {
    && (forall k | 0 <= k < |tools| :: tools[k].role == Tool)
    && multiset(AnswerIds(tools)) == multiset(CallIds(calls))
    && |tools| == |calls|
  }

  /** The rule of the upstream: an assistant message with n calls is followed at once by
      exactly its n tool messages, and there are no other tool messages. */
  ghost predicate WellPaired(ms: seq<Message>)
    decreases |ms|
  {
    if ms == [] then true
    else if ms[0].role == Tool then false
    else if HasCalls(ms[0]) then
      var n := |ms[0].calls|;
      n < |ms| && Answers(ms[1..n + 1], ms[0].calls) && WellPaired(ms[n + 1..])
    else WellPaired(ms[1..])
  }

  lemma {:induction false} WellPairedAppend(a: seq<Message>, b: seq<Message>)
    requires WellPaired(a)
    ensures WellPaired(a + b) <==> WellPaired(b)
    decreases |a|
  {
    if a == [] {
      assert a + b == b;
    } else {
      var n := if HasCalls(a[0]) then |a[0].calls| else 0;
      WellPairedAppend(a[n + 1..], b);
      SameTurn(a, b, n);
    }
  }

  lemma {:induction false} SameTurn(a: seq<Message>, b: seq<Message>, n: nat)
    requires n < |a|
    ensures (a + b)[n + 1..] == a[n + 1..] + b && (a + b)[1..n + 1] == a[1..n + 1] && (a + b)[0] == a[0]
  {
  }

  /** An assistant turn together with its answers. */
  lemma {:induction false} WellPairedTurn(m: Message, tools: seq<Message>)
    requires HasCalls(m) && Answers(tools, m.calls)
    ensures WellPaired([m] + tools)
  {
    var turn := [m] + tools;
    assert turn[1..|m.calls| + 1] == tools && turn[|m.calls| + 1..] == [];
  }

  lemma {:induction false} WellPairedPush(ms: seq<Message>, m: Message)
    requires WellPaired(ms) && m.role != Tool && !HasCalls(m)
    ensures WellPaired(ms + [m])
  {
    WellPairedAppend(ms, [m]);
    assert WellPaired([m][1..]);
  }

  lemma {:induction false} PlainPrefix(plain: seq<Message>, rest: seq<Message>)
    requires forall k | 0 <= k < |plain| :: plain[k].role != Tool && !HasCalls(plain[k])
    ensures WellPaired(plain + rest) <==> WellPaired(rest)
  {
    if plain == [] {
      assert plain + rest == rest;
    } else {
      PlainPrefix(plain[1..], rest);
      assert (plain + rest)[1..] == plain[1..] + rest;
    }
  }

  /** A well-paired list may be cut in front of any message that is not a tool message. */
  lemma {:induction false} CutAtTurn(ms: seq<Message>, k: nat)
    requires WellPaired(ms) && k <= |ms| && (k < |ms| ==> ms[k].role != Tool)
    ensures WellPaired(ms[k..])
    decreases |ms|
  {
    if k == 0 {
      assert ms[k..] == ms;
    } else {
      var n := if HasCalls(ms[0]) then |ms[0].calls| else 0;
      forall j | 1 <= j <= n ensures ms[j].role == Tool {
        assert ms[1..n + 1][j - 1] == ms[j];
      }
      CutAtTurn(ms[n + 1..], k - n - 1);
      assert ms[n + 1..][k - n - 1..] == ms[k..];
    }
  }

  function Filter<T>(s: seq<T>, p: T -> bool): seq<T> {
    if s == [] then []
    else Filter(s[..|s| - 1], p) + (if p(s[|s| - 1]) then [s[|s| - 1]] else [])
  }

  lemma {:induction false} FilterAppend<T>(a: seq<T>, b: seq<T>, p: T -> bool)
    ensures Filter(a + b, p) == Filter(a, p) + Filter(b, p)
  {
    if b == [] {
      assert a + b == a;
    } else {
      FilterAppend(a, b[..|b| - 1], p);
      assert (a + b)[..|a + b| - 1] == a + b[..|b| - 1];
    }
  }

  lemma {:induction false} FilterAll<T>(s: seq<T>, p: T -> bool, yes: bool)
    requires forall k | 0 <= k < |s| :: p(s[k]) == yes
    ensures Filter(s, p) == if yes then s else []
  {
    if s != [] {
      FilterAll(s[..|s| - 1], p, yes);
      assert s == s[..|s| - 1] + [s[|s| - 1]];
    }
  }

  /** All calls of a conversation, in order. */
  function AllCalls(ms: seq<Message>): seq<Call> {
    if ms == [] then []
    else AllCalls(ms[..|ms| - 1]) + (if HasCalls(ms[|ms| - 1]) then ms[|ms| - 1].calls else [])
  }

  lemma {:induction false} AllCallsAppend(a: seq<Message>, b: seq<Message>)
    ensures AllCalls(a + b) == AllCalls(a) + AllCalls(b)
  {
    if b == [] {
      assert a + b == a;
    } else {
      AllCallsAppend(a, b[..|b| - 1]);
      assert (a + b)[..|a + b| - 1] == a + b[..|b| - 1];
    }
  }
}
