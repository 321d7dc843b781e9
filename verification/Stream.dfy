/** The state of a streaming run between the upstream's frames and the client's events. */
module Stream {
  import opened Common
  import opened Forwarder
  import opened ToolCalls

  /** A decoded upstream frame. */
  datatype Payload =
    | DoneMarker
    | Malformed
    | Delta(content: string, reasoning: string, messageReasoning: string, fragments: seq<Fragment>)

  /** What the frames of a stream say; Bad for malformed JSON or a second end marker. */
  datatype Digest = Bad | Good(text: string, reasonings: seq<string>, fragments: seq<Fragment>, done: bool)

  function DigestFrame(d: Digest, p: Payload): Digest {
    if d.Bad? then Bad
    else
      match p
      case Malformed => Bad
      case DoneMarker => if d.done then Bad else d.(done := true)
      case Delta(content, reasoning, messageReasoning, fragments) =>
        Good(d.text + content,
             d.reasonings + [if reasoning != "" then reasoning else messageReasoning],
             d.fragments + fragments,
             d.done)
  }

  lemma {:induction false} AllAdded(syn: Synthetic, chunks: seq<string>, chunk: string)
    ensures AddAll(syn, IDLE, chunks + [chunk]) == Add(syn, AddAll(syn, IDLE, chunks), chunk)
  {
    assert (chunks + [chunk])[..|chunks|] == chunks;
  }

  const NO_FRAMES := Good("", [], [], false)

  function DigestAll(decode: string -> Payload, frames: seq<string>): Digest {
    if frames == [] then NO_FRAMES
    else DigestFrame(DigestAll(decode, frames[..|frames| - 1]), decode(frames[|frames| - 1]))
  }

  lemma {:induction false} DigestNext(decode: string -> Payload, frames: seq<string>, frame: string)
    ensures DigestAll(decode, frames + [frame]) == DigestFrame(DigestAll(decode, frames), decode(frame))
  {
    assert (frames + [frame])[..|frames|] == frames;
  }

  lemma {:induction false} BadStays(decode: string -> Payload, frames: seq<string>, more: seq<string>)
    requires DigestAll(decode, frames).Bad?
    ensures DigestAll(decode, frames + more).Bad?
  {
    if more == [] {
      assert frames + more == frames;
    } else {
      BadStays(decode, frames, more[..|more| - 1]);
      assert frames + more == frames + more[..|more| - 1] + [more[|more| - 1]];
      DigestNext(decode, frames + more[..|more| - 1], more[|more| - 1]);
    }
  }

  lemma {:induction false} SnocTake(fs: seq<Fragment>, more: seq<Fragment>, k: nat)
    requires k < |more|
    ensures fs + more[..k] + [more[k]] == fs + more[..k + 1]
  {
  }

  class Accumulator {
    const forwarder: ReasoningForwarder
    const freshId: nat -> string
    var text: string
    var bufferedMessageText: string
    var msgAdded: bool
    var messageOutputIndex: Option<nat>
    var nextToolIndex: nat
    var sawDone: bool
    var toolCalls: seq<ToolCall>

    constructor (forwarder: ReasoningForwarder, freshId: nat -> string)
      requires forwarder.Valid() && forwarder.Abs() == IDLE && forwarder.item == []
      ensures this.forwarder == forwarder && this.freshId == freshId
      ensures Holds(NO_FRAMES) && Buffered()
    {
      this.forwarder, this.freshId := forwarder, freshId;
      text, bufferedMessageText, msgAdded, messageOutputIndex, nextToolIndex, sawDone, toolCalls :=
        "", "", false, None, 0, false, [];
    }

    /** No message event has been written yet: all text waits in the buffer. */
    ghost predicate Buffered()
      reads this, forwarder
    {
      && bufferedMessageText == text && !msgAdded && messageOutputIndex.None?
      && forwarder.Valid() && (forwarder.emitted ==> forwarder.activeOutputIndex == Some(0))
    }

    ghost predicate CallsHold(fs: seq<Fragment>)
      reads this
    {
      toolCalls == Assembled(fs, freshId) && nextToolIndex == CountNumbered(Headers(fs, freshId))
    }

    /** The state after frames with digest d. */
    ghost predicate Holds(d: Digest)
      reads this, forwarder
    {
      && d.Good? && text == d.text && sawDone == d.done
      && CallsHold(d.fragments)
      && forwarder.Abs() == AddAll(forwarder.syn, IDLE, d.reasonings)
    }

    function ReasoningOutputIndex(): nat
      reads this
    {
      if messageOutputIndex.None? then 0 else 1
    }

    method AddReasoning(client: Client, chunk: string)
      requires Buffered() && client.events == [Created] + forwarder.item
      modifies client, forwarder
      ensures Buffered() && client.events == [Created] + forwarder.item
      ensures forwarder.Abs() == Add(forwarder.syn, old(forwarder.Abs()), chunk)
    {
      ghost var written, item := client.events, forwarder.item;
      forwarder.AddChunk(client, ReasoningOutputIndex(), chunk);
      WroteBehind([Created], written, client.events, item, forwarder.item);
    }

    method FindCall(f: Fragment, ghost hs: seq<Header>) returns (r: Option<nat>)
      requires |hs| == |toolCalls| && forall k | 0 <= k < |hs| :: hs[k] == Header(toolCalls[k].key, toolCalls[k].id)
      ensures r == Continues(hs, f)
    {
      if f.index.Some? {
        for k := 0 to |toolCalls|
          invariant forall j | 0 <= j < k :: hs[j].key != AtIndex(f.index.value)
        {
          if toolCalls[k].key == AtIndex(f.index.value) {
            return Some(k);
          }
        }
      }
      if f.id != "" {
        for k := 0 to |toolCalls|
          invariant forall j | 0 <= j < k :: hs[j].id != f.id
        {
          if toolCalls[k].id == f.id {
            return Some(k);
          }
        }
      }
      return None;
    }

    method AddFragment(f: Fragment, ghost fs: seq<Fragment>)
      requires CallsHold(fs)
      modifies this`toolCalls, this`nextToolIndex
      ensures CallsHold(fs + [f])
    {
      ghost var hs, calls := Headers(fs, freshId), toolCalls;
      var found := FindCall(f, hs);
      var at: nat := |toolCalls|;
      NextFragment(fs, f, freshId, 0);
      if found.Some? {
        at := found.value;
      } else {
        OpenCall(f, hs);
      }
      var acc := toolCalls[at];
      ghost var grown := toolCalls;
      toolCalls := toolCalls[at := acc.(name := if f.name != "" then f.name else acc.name, args := acc.args + f.args)];
      FragmentTaken(calls, fs, f, freshId, grown, at, toolCalls);
    }

    method OpenCall(f: Fragment, ghost hs: seq<Header>)
      requires |hs| == |toolCalls| && nextToolIndex == CountNumbered(hs)
      modifies this`toolCalls, this`nextToolIndex
      ensures var h := Opened(hs, f, freshId);
              && toolCalls == old(toolCalls) + [ToolCall(h.key, h.id, "", "")]
              && nextToolIndex == CountNumbered(hs + [h])
    {
      assert (hs + [Opened(hs, f, freshId)])[..|hs|] == hs;
      var key;
      if f.index.Some? {
        key := AtIndex(f.index.value);
      } else {
        key := Numbered(nextToolIndex);
        nextToolIndex := nextToolIndex + 1;
      }
      toolCalls := toolCalls + [ToolCall(key, if f.id != "" then f.id else freshId(|toolCalls|), "", "")];
    }

    method AddFragments(fragments: seq<Fragment>, ghost fs: seq<Fragment>)
      requires CallsHold(fs)
      modifies this`toolCalls, this`nextToolIndex
      ensures CallsHold(fs + fragments)
    {
      assert fs + fragments[..0] == fs;
      for k := 0 to |fragments|
        invariant CallsHold(fs + fragments[..k])
      {
        SnocTake(fs, fragments, k);
        AddFragment(fragments[k], fs + fragments[..k]);
      }
      assert fs + fragments[..|fragments|] == fs + fragments;
    }

    /** One frame; a second end marker or malformed JSON breaks the stream. */
    method HandleFrame(client: Client, p: Payload, ghost d: Digest) returns (ok: bool)
      requires Holds(d) && Buffered() && client.events == [Created] + forwarder.item
      modifies this, client, forwarder
      ensures Buffered() && client.events == [Created] + forwarder.item
      ensures ok == DigestFrame(d, p).Good?
      ensures Holds(if ok then DigestFrame(d, p) else d)
    {
      ok := true;
      match p {
        case Malformed =>
          ok := false;
        case DoneMarker =>
          ok := !sawDone;
          sawDone := true;
        case Delta(content, reasoning, messageReasoning, fragments) =>
          HandleDelta(client, content, if reasoning != "" then reasoning else messageReasoning, fragments, d);
      }
    }

    method HandleDelta(client: Client, content: string, shown: string, fragments: seq<Fragment>, ghost d: Digest)
      requires Holds(d) && Buffered() && client.events == [Created] + forwarder.item
      modifies this, client, forwarder
      ensures Buffered() && client.events == [Created] + forwarder.item
      ensures Holds(Good(d.text + content, d.reasonings + [shown], d.fragments + fragments, d.done))
    {
      AddReasoning(client, shown);
      AllAdded(forwarder.syn, d.reasonings, shown);
      text := text + content;
      bufferedMessageText := bufferedMessageText + content;
      AddFragments(fragments, d.fragments);
    }

    /** Write out the buffered text as one delta, opening the message item first. */
    method FlushBufferedMessage(client: Client)
      requires Buffered()
      modifies this`bufferedMessageText, this`msgAdded, this`messageOutputIndex, client
      ensures client.events == old(client.events)
          + MessageEvents(MessageIndex(forwarder.emitted), old(bufferedMessageText), false)
      ensures messageOutputIndex ==
                if old(bufferedMessageText) == "" then None else Some(MessageIndex(forwarder.emitted))
    {
      if bufferedMessageText != "" {
        var index := MessageIndex(forwarder.emitted);
        messageOutputIndex := Some(index);
        msgAdded := true;
        client.Write(MessageAdded(index));
        client.Write(MessageDelta(index, bufferedMessageText));
        bufferedMessageText := "";
      }
    }
  }

  /** Behind a reasoning item the message has index 1, else 0. */
  function MessageIndex(reasoned: bool): nat {
    if reasoned then 1 else 0
  }

  function MessageEvents(index: nat, text: string, done: bool): seq<Event> {
    if text == "" then []
    else [MessageAdded(index), MessageDelta(index, text)] + (if done then [MessageDone(index, text)] else [])
  }
}
