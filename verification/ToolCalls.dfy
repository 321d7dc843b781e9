/** Tool calls assembled from stream fragments. */
module ToolCalls {
  import opened Common

  /** One piece of a tool call; "" stands for an absent id, name or argument text. */
  datatype Fragment = Fragment(index: Option<int>, id: string, name: string, args: string)

  datatype Key = AtIndex(i: int) | Numbered(n: nat) | Recovered(n: nat)
  datatype ToolCall = ToolCall(key: Key, id: string, name: string, args: string)

  // ---- Which call a fragment belongs to, said without the calls themselves ----

  /** What identifies an open call. */
  datatype Header = Header(key: Key, id: string)

  function FirstKey(hs: seq<Header>, key: Key): (r: Option<nat>)
    ensures r.Some? ==> r.value < |hs| && hs[r.value].key == key
    ensures forall k | 0 <= k < (if r.Some? then r.value else |hs|) :: hs[k].key != key
  {
    if hs == [] then None
    else if hs[0].key == key then Some(0)
    else match FirstKey(hs[1..], key) case None => None case Some(k) => Some(k + 1)
  }

  function FirstId(hs: seq<Header>, id: string): (r: Option<nat>)
    ensures r.Some? ==> r.value < |hs| && hs[r.value].id == id
    ensures forall k | 0 <= k < (if r.Some? then r.value else |hs|) :: hs[k].id != id
  {
    if hs == [] then None
    else if hs[0].id == id then Some(0)
    else match FirstId(hs[1..], id) case None => None case Some(k) => Some(k + 1)
  }

  /** The open call a fragment continues: by index, else by id. */
  function Continues(hs: seq<Header>, f: Fragment): (r: Option<nat>)
    ensures r.Some? ==> r.value < |hs|
  {
    var byKey := if f.index.Some? then FirstKey(hs, AtIndex(f.index.value)) else None;
    if byKey.Some? then byKey else if f.id != "" then FirstId(hs, f.id) else None
  }

  /** The call, counted from 0, that a fragment goes to; it opens a new one if need be. */
  function Owner(hs: seq<Header>, f: Fragment): (o: nat)
    ensures o <= |hs|
  {
    match Continues(hs, f) case Some(o) => o case None => |hs|
  }

  function CountNumbered(hs: seq<Header>): nat {
    if hs == [] then 0 else CountNumbered(hs[..|hs| - 1]) + (if hs[|hs| - 1].key.Numbered? then 1 else 0)
  }

  function Opened(hs: seq<Header>, f: Fragment, freshId: nat -> string): Header {
    Header(if f.index.Some? then AtIndex(f.index.value) else Numbered(CountNumbered(hs)),
           if f.id != "" then f.id else freshId(|hs|))
  }

  function Headers(fs: seq<Fragment>, freshId: nat -> string): seq<Header> {
    if fs == [] then []
    else
      var hs, f := Headers(fs[..|fs| - 1], freshId), fs[|fs| - 1];
      if Owner(hs, f) < |hs| then hs else hs + [Opened(hs, f, freshId)]
  }

  /** The argument pieces of call o, concatenated in stream order. */
  function ArgsOf(fs: seq<Fragment>, freshId: nat -> string, o: nat): string {
    if fs == [] then ""
    else
      var init, f := fs[..|fs| - 1], fs[|fs| - 1];
      ArgsOf(init, freshId, o) + (if Owner(Headers(init, freshId), f) == o then f.args else "")
  }

  /** The last non-empty name given for call o. */
  function NameOf(fs: seq<Fragment>, freshId: nat -> string, o: nat): string {
    if fs == [] then ""
    else
      var init, f := fs[..|fs| - 1], fs[|fs| - 1];
      if Owner(Headers(init, freshId), f) == o && f.name != "" then f.name else NameOf(init, freshId, o)
  }

  /** Each call, in its place, with exactly the pieces of its own fragments. */
  function Assembled(fs: seq<Fragment>, freshId: nat -> string): (calls: seq<ToolCall>)
    ensures |calls| == |Headers(fs, freshId)|
  {
    var hs := Headers(fs, freshId);
    seq(|hs|, o requires 0 <= o < |hs| => ToolCall(hs[o].key, hs[o].id, NameOf(fs, freshId, o), ArgsOf(fs, freshId, o)))
  }

  lemma {:induction false} NothingYet(fs: seq<Fragment>, freshId: nat -> string, o: nat)
    requires o >= |Headers(fs, freshId)|
    ensures ArgsOf(fs, freshId, o) == "" && NameOf(fs, freshId, o) == ""
  {
    if fs != [] {
      NothingYet(fs[..|fs| - 1], freshId, o);
    }
  }

  lemma {:induction false} NextFragment(fs: seq<Fragment>, f: Fragment, freshId: nat -> string, o: nat)
    ensures var hs := Headers(fs, freshId);
            var owner := Owner(hs, f);
            && Headers(fs + [f], freshId) == (if owner < |hs| then hs else hs + [Opened(hs, f, freshId)])
            && ArgsOf(fs + [f], freshId, o) == ArgsOf(fs, freshId, o) + (if o == owner then f.args else "")
            && NameOf(fs + [f], freshId, o) == (if o == owner && f.name != "" then f.name else NameOf(fs, freshId, o))
  {
    assert (fs + [f])[..|fs|] == fs;
  }

  /** One more fragment: the call it continues, or a new one, takes its name and arguments. */
  lemma {:induction false} FragmentTaken(calls: seq<ToolCall>, fs: seq<Fragment>, f: Fragment,
      freshId: nat -> string, started: seq<ToolCall>, o: nat, after: seq<ToolCall>)
    requires calls == Assembled(fs, freshId)
    requires o == Owner(Headers(fs, freshId), f)
    requires var h := Opened(Headers(fs, freshId), f, freshId);
             started == if o < |calls| then calls else calls + [ToolCall(h.key, h.id, "", "")]
    requires o < |started|
    requires var name := if f.name != "" then f.name else started[o].name;
             after == started[o := started[o].(name := name, args := started[o].args + f.args)]
    ensures after == Assembled(fs + [f], freshId)
  {
    NothingYet(fs, freshId, |calls|);
    forall k | 0 <= k < |after|
      ensures after[k].name == NameOf(fs + [f], freshId, k) && after[k].args == ArgsOf(fs + [f], freshId, k)
    {
      NextFragment(fs, f, freshId, k);
      assert ArgsOf(fs, freshId, k) + "" == ArgsOf(fs, freshId, k);
    }
    NextFragment(fs, f, freshId, o);
  }
}
