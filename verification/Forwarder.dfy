/** Forwarding of reasoning text as events of one reasoning item. */
module Forwarder {
  import opened Common
  import opened Reasoning

  datatype FailureKind =
    | UpstreamError | UpstreamHttp | BadUpstream | StreamError | EmptyUpstream
    | RecoveryTimeout | RecoveryError | RecoveryUnresolved | WebLoopError

  /** Typed events of the Responses stream, in the order they are written. */
  datatype Event =
    | Created
    | ReasoningAdded(index: nat)
    | ReasoningPartAdded(index: nat)
    | ReasoningDelta(index: nat, delta: string)
    | ReasoningTextDone(index: nat, text: string)
    | ReasoningPartDone(index: nat, text: string)
    | ReasoningDone(index: nat, text: string)
    | MessageAdded(index: nat)
    | MessageDelta(index: nat, delta: string)
    | MessageDone(index: nat, text: string)
    | ToolItem(callId: string, name: string, arguments: string)
    | ResponseFailed(kind: FailureKind)
    | ResponseCompleted(endTurn: bool)

  class Client {
    var events: seq<Event>

    constructor ()
      ensures events == []
    {
      events := [];
    }

    method Write(e: Event)
      modifies this
      ensures events == old(events) + [e]
    {
      events := events + [e];
    }
  }

  predicate IsReasoning(e: Event) {
    || e.ReasoningAdded? || e.ReasoningPartAdded? || e.ReasoningDelta?
    || e.ReasoningTextDone? || e.ReasoningPartDone? || e.ReasoningDone?
  }

  /** The settings that recognise the synthetic text. */
  datatype Synthetic = Synthetic(fallback: string, fold: char -> char)

  /** Texts joined by single spaces. */
  function Joined(deltas: seq<string>): string {
    if deltas == [] then ""
    else if |deltas| == 1 then deltas[0]
    else Joined(deltas[..|deltas| - 1]) + " " + deltas[|deltas| - 1]
  }

  function DeltaEvents(index: nat, deltas: seq<string>): seq<Event> {
    if deltas == [] then []
    else DeltaEvents(index, deltas[..|deltas| - 1]) + [ReasoningDelta(index, deltas[|deltas| - 1])]
  }

  /** The events of a reasoning item: nothing without deltas, else add, deltas, done. */
  function ItemEvents(index: nat, deltas: seq<string>, finished: bool): seq<Event> {
    if deltas == [] then []
    else
      [ReasoningAdded(index), ReasoningPartAdded(index)] + DeltaEvents(index, deltas) +
      (if finished then
         [ReasoningTextDone(index, Joined(deltas)), ReasoningPartDone(index, Joined(deltas)),
          ReasoningDone(index, Joined(deltas))]
       else [])
  }

  /** Held text, deltas sent, and whether the item is closed. */
  datatype State = State(pending: string, deltas: seq<string>, finished: bool)

  const IDLE := State("", [], false)

  function Send(syn: Synthetic, s: State, text: string): State {
    var visible := Visible(syn.fallback, syn.fold, text);
    if visible == "" then s else s.(deltas := s.deltas + [visible])
  }

  function Add(syn: Synthetic, s: State, chunk: string): State {
    if s.finished || chunk == "" then s
    else
      var held := s.pending + chunk;
      if Normalize(held) <= Normalize(syn.fallback) then s.(pending := held)
      else Send(syn, s, held).(pending := "")
  }

  function Finish(syn: Synthetic, s: State): State {
    if s.finished then s else Send(syn, s, s.pending).(pending := "", finished := true)
  }

  function AddAll(syn: Synthetic, s: State, chunks: seq<string>): State {
    if chunks == [] then s else Add(syn, AddAll(syn, s, chunks[..|chunks| - 1]), chunks[|chunks| - 1])
  }

  lemma {:induction false} ItemGrows(index: nat, deltas: seq<string>, delta: string)
    ensures ItemEvents(index, deltas + [delta], false) ==
              (if deltas == [] then [ReasoningAdded(index), ReasoningPartAdded(index)]
                  else ItemEvents(index, deltas, false))
              + [ReasoningDelta(index, delta)]
  {
    var grown := deltas + [delta];
    assert grown[..|grown| - 1] == deltas;
    assert DeltaEvents(index, grown) == DeltaEvents(index, deltas) + [ReasoningDelta(index, delta)];
  }

  predicate NoneEmpty(deltas: seq<string>) {
    forall d | d in deltas :: d != ""
  }

  lemma {:induction false} SummaryGrows(deltas: seq<string>, delta: string)
    requires NoneEmpty(deltas) && delta != ""
    ensures Joined(deltas + [delta]) == if Joined(deltas) == "" then delta else Joined(deltas) + " " + delta
    ensures NoneEmpty(deltas + [delta])
  {
    var grown := deltas + [delta];
    assert grown[..|grown| - 1] == deltas;
    if deltas != [] {
      assert deltas[0] in deltas;
    }
  }

  /** What was written in between is what the item gained. */
  ghost predicate Wrote(before: seq<Event>, after: seq<Event>, item: seq<Event>, grown: seq<Event>) {
    item <= grown && after == before + grown[|item|..]
  }

  lemma {:induction false} WroteBoth(a: seq<Event>, b: seq<Event>, c: seq<Event>, x: seq<Event>, y: seq<Event>,
      z: seq<Event>)
    requires Wrote(a, b, x, y) && Wrote(b, c, y, z)
    ensures Wrote(a, c, x, z)
  {
    assert z[|x|..] == y[|x|..] + z[|y|..];
  }

  lemma {:induction false} WroteBehind(before: seq<Event>, a: seq<Event>, b: seq<Event>, x: seq<Event>, y: seq<Event>)
    requires a == before + x && Wrote(a, b, x, y)
    ensures b == before + y
  {
    assert y == x + y[|x|..];
  }

  lemma {:induction false} DeltaWritten(before: seq<Event>, index: nat, deltas: seq<string>, delta: string,
      after: seq<Event>)
    requires after == before + (if deltas == [] then [ReasoningAdded(index), ReasoningPartAdded(index)] else [])
                      + [ReasoningDelta(index, delta)]
    ensures Wrote(before, after, ItemEvents(index, deltas, false), ItemEvents(index, deltas + [delta], false))
  {
    ItemGrows(index, deltas, delta);
  }

  method WriteDelta(client: Client, index: nat, opens: bool, visible: string)
    modifies client
    ensures client.events == old(client.events)
              + (if opens then [ReasoningAdded(index), ReasoningPartAdded(index)] else [])
                  + [ReasoningDelta(index, visible)]
  {
    if opens {
      client.Write(ReasoningAdded(index));
      client.Write(ReasoningPartAdded(index));
    }
    client.Write(ReasoningDelta(index, visible));
  }

  class ReasoningForwarder {
    const syn: Synthetic
    var pending: string
    var emitted: bool
    var finished: bool
    var summaryText: string
    var activeOutputIndex: Option<nat>

    /** The deltas sent so far, and all events written. */
    ghost var deltas: seq<string>
    ghost var item: seq<Event>

    ghost predicate Valid()
      reads this
    {
      && emitted == (deltas != [])
      && emitted == activeOutputIndex.Some?
      && summaryText == Joined(deltas)
      && NoneEmpty(deltas)
      && item == ItemEvents(Index(), deltas, finished)
    }

    ghost function Index(): nat
      reads this
    {
      if activeOutputIndex.Some? then activeOutputIndex.value else 0
    }

    ghost function Abs(): State
      reads this
    {
      State(pending, deltas, finished)
    }

    constructor (syn: Synthetic)
      ensures Valid() && this.syn == syn && Abs() == IDLE && item == []
    {
      this.syn := syn;
      pending, emitted, finished, summaryText, activeOutputIndex := "", false, false, "", None;
      deltas, item := [], [];
    }

    /** The item's index is fixed by its first event; `outputIndex` is the index it would get now. */
    method Emit(client: Client, outputIndex: nat, text: string)
      requires Valid() && !finished
      modifies client, this`emitted, this`summaryText, this`activeOutputIndex, this`deltas, this`item
      ensures Valid() && deltas == Send(syn, old(Abs()), text).deltas
      ensures activeOutputIndex == if old(emitted) || !emitted then old(activeOutputIndex) else Some(outputIndex)
      ensures Wrote(old(client.events), client.events, old(item), item)
    {
      var visible := Visible(syn.fallback, syn.fold, text);
      if visible == "" {
        return;
      }
      var opens := !emitted;
      if opens {
        emitted := true;
        activeOutputIndex := Some(outputIndex);
      }
      var index := activeOutputIndex.value;
      WriteDelta(client, index, opens, visible);
      DeltaWritten(old(client.events), index, deltas, visible, client.events);
      SummaryGrows(deltas, visible);
      summaryText := if summaryText == "" then visible else summaryText + " " + visible;
      deltas := deltas + [visible];
      item := ItemEvents(index, deltas, false);
    }

    method AddChunk(client: Client, outputIndex: nat, chunk: string)
      requires Valid()
      modifies client, this
      ensures Valid() && Abs() == Add(syn, old(Abs()), chunk)
      ensures activeOutputIndex == if old(emitted) || !emitted then old(activeOutputIndex) else Some(outputIndex)
      ensures Wrote(old(client.events), client.events, old(item), item)
    {
      if finished || chunk == "" {
        return;
      }
      pending := pending + chunk;
      if Normalize(pending) <= Normalize(syn.fallback) {
        return;
      }
      Emit(client, outputIndex, pending);
      pending := "";
    }

    method FinishItem(client: Client, outputIndex: nat) returns (forwarded: bool)
      requires Valid()
      modifies client, this
      ensures Valid() && Abs() == Finish(syn, old(Abs())) && forwarded == emitted
      ensures activeOutputIndex == if old(emitted) || !emitted then old(activeOutputIndex) else Some(outputIndex)
      ensures Wrote(old(client.events), client.events, old(item), item)
    {
      if finished {
        return emitted;
      }
      Emit(client, outputIndex, pending);
      pending := "";
      ghost var before, sent := client.events, item;
      if emitted {
        CloseItem(client);
      } else {
        finished := true;
      }
      WroteBoth(old(client.events), before, client.events, old(item), sent, item);
      forwarded := emitted;
    }

    method CloseItem(client: Client)
      requires Valid() && emitted && !finished
      modifies client, this`finished, this`item
      ensures Valid() && finished
      ensures Wrote(old(client.events), client.events, old(item), item)
    {
      var index := activeOutputIndex.value;
      client.Write(ReasoningTextDone(index, summaryText));
      client.Write(ReasoningPartDone(index, summaryText));
      client.Write(ReasoningDone(index, summaryText));
      finished := true;
      item := ItemEvents(index, deltas, true);
    }
  }

  // ---- The fallback is never shown ----

  lemma {:induction false} NormalizeGrows(p: string, q: string)
    ensures Normalize(p) <= Normalize(p + q)
    decreases |p|, 0
  {
    if p != "" {
      assert (p + q)[1..] == p[1..] + q;
      if IsSpace(p[0]) {
        NormalizeGrows(p[1..], q);
      } else {
        NormalizeTailGrows(p[1..], q);
      }
    }
  }

  lemma {:induction false} NormalizeTailGrows(p: string, q: string)
    ensures NormalizeTail(p) <= NormalizeTail(p + q)
    decreases |p|, 1
  {
    if p != "" {
      assert (p + q)[1..] == p[1..] + q;
      if IsSpace(p[0]) {
        NormalizeGrows(p[1..], q);
      } else {
        NormalizeTailGrows(p[1..], q);
      }
    }
  }

  function Concat(chunks: seq<string>): string {
    if chunks == [] then "" else Concat(chunks[..|chunks| - 1]) + chunks[|chunks| - 1]
  }

  /** Every prefix of the fallback text is held back. */
  lemma {:induction false} PrefixesHeld(syn: Synthetic, chunks: seq<string>, rest: string)
    requires Normalize(Concat(chunks) + rest) == Normalize(syn.fallback)
    ensures AddAll(syn, IDLE, chunks) == State(Concat(chunks), [], false)
  {
    if chunks != [] {
      var init, last := chunks[..|chunks| - 1], chunks[|chunks| - 1];
      assert Concat(init) + (last + rest) == Concat(chunks) + rest;
      PrefixesHeld(syn, init, last + rest);
      NormalizeGrows(Concat(chunks), rest);
      assert last == "" ==> Concat(chunks) == Concat(init);
    }
  }

  /** However the synthetic text is spaced and cut into chunks, no event is written at all. */
  lemma {:induction false} FallbackIsSilent(syn: Synthetic, chunks: seq<string>)
    requires KeepsSpace(syn.fold) && Normalize(Concat(chunks)) == Normalize(syn.fallback)
    ensures AddAll(syn, IDLE, chunks).deltas == []
    ensures Finish(syn, AddAll(syn, IDLE, chunks)).deltas == []
  {
    assert Concat(chunks) + "" == Concat(chunks);
    PrefixesHeld(syn, chunks, "");
    FallbackInvisible(syn.fallback, syn.fold, Concat(chunks));
  }

  /** A whole reasoning stream: the events written are exactly those of one item. */
  method ForwardAll(syn: Synthetic, client: Client, outputIndex: nat, chunks: seq<string>)
    returns (ghost deltas: seq<string>)
    modifies client
    ensures deltas == Finish(syn, AddAll(syn, IDLE, chunks)).deltas
    ensures client.events == old(client.events) + ItemEvents(outputIndex, deltas, true)
  {
    var forwarder := new ReasoningForwarder(syn);
    ghost var before := client.events;
    for k := 0 to |chunks|
      invariant forwarder.Valid() && fresh(forwarder) && forwarder.syn == syn
      invariant forwarder.Abs() == AddAll(syn, IDLE, chunks[..k])
      invariant forwarder.activeOutputIndex.Some? ==> forwarder.activeOutputIndex.value == outputIndex
      invariant client.events == before + forwarder.item
    {
      ghost var written, item := client.events, forwarder.item;
      AddAllNext(syn, chunks, k);
      forwarder.AddChunk(client, outputIndex, chunks[k]);
      WroteBehind(before, written, client.events, item, forwarder.item);
    }
    assert chunks[..|chunks|] == chunks;
    ghost var written, item := client.events, forwarder.item;
    var _ := forwarder.FinishItem(client, outputIndex);
    WroteBehind(before, written, client.events, item, forwarder.item);
    deltas := forwarder.deltas;
  }

  lemma {:induction false} AddAllNext(syn: Synthetic, chunks: seq<string>, k: nat)
    requires k < |chunks|
    ensures AddAll(syn, IDLE, chunks[..k + 1]) == Add(syn, AddAll(syn, IDLE, chunks[..k]), chunks[k])
  {
    assert chunks[..k + 1][..k] == chunks[..k];
  }
}
