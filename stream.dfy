/** The streaming aggregator: how one request consumes the fragments streamed
    back by the model backend, accumulates their text, and decides whether and
    what to reply. */
module Stream {

  import opened Wrappers
  import opened Text

  /** The `message` object of a streamed fragment; `content` is `None` when the
      key is missing. */
  datatype Chunk = Chunk(content: Option<string>)

  /** One streamed response object: its optional `message` and its `done` flag. */
  datatype Fragment = Fragment(message: Option<Chunk>, done: bool)

  /** What the backend does for one request: it yields `fragments` in order and,
      when asked for more after the last one, either ends the stream or raises
      (`raises`). A backend that cannot be reached at all is `Backend([], true)`. */
  datatype Backend = Backend(fragments: seq<Fragment>, raises: bool)

  /** How consuming a stream ends: a reply with `text`, the stream running out
      with no reply, or the backend raising with no reply sent. */
  datatype StreamEnd = Replied(text: string) | Exhausted | Raised

  /** The characters whose presence in a chunk makes the loop consult the
      response handler before `done`. */
  const SentenceEnds := ".\n!?"

  /** The text a fragment's message adds to the accumulator (a missing
      `content` key reads as ""). */
  function ChunkText(c: Chunk): string {
    c.content.GetOr("")
  }

  /** What a fragment adds to the accumulator: nothing when its message is missing. */
  function Piece(f: Fragment): string {
    if f.message.Some? then ChunkText(f.message.value) else ""
  }

  /** The accumulated response after consuming `fs`. */
  function Accumulated(fs: seq<Fragment>): string {
    Join(Piece, fs)
  }

  /** Fragment `k` triggers the reply: it has a message, it is marked `done`,
      and the text accumulated up to and including it is not all whitespace. */
  predicate Fires(fs: seq<Fragment>, k: int)
    requires 0 <= k < |fs|
  {
    fs[k].message.Some? && fs[k].done && Strip(Accumulated(fs[..k + 1])) != ""
  }

  /** No fragment of `fs` from index `i` up to (excluding) `j` triggers the reply. */
  predicate NoneFires(fs: seq<Fragment>, i: int, j: int)
    requires 0 <= i <= j <= |fs|
  {
    forall k :: i <= k < j ==> !Fires(fs, k)
  }

  /** The first fragment at or after `i` that triggers the reply. */
  function FirstFireFrom(fs: seq<Fragment>, i: nat): (r: Option<nat>)
    requires i <= |fs|
    decreases |fs| - i
    ensures r.Some? ==> i <= r.value < |fs| && Fires(fs, r.value) && NoneFires(fs, i, r.value)
    ensures r.None? ==> NoneFires(fs, i, |fs|)
  {
    if i == |fs| then None
    else if Fires(fs, i) then Some(i)
    else
      var r := FirstFireFrom(fs, i + 1);
      NoneFiresPrepend(fs, i, if r.Some? then r.value else |fs|);
      r
  }

  /** A fragment that does not trigger, followed by a trigger-free run. */
  lemma NoneFiresPrepend(fs: seq<Fragment>, i: nat, j: nat)
    requires i < j <= |fs| && !Fires(fs, i) && NoneFires(fs, i + 1, j)
    ensures NoneFires(fs, i, j)
  {
  }

  /** One more fragment that does not trigger keeps the run trigger-free. */
  lemma NoneFiresExtend(fs: seq<Fragment>, i: nat)
    requires i < |fs| && NoneFires(fs, 0, i) && !Fires(fs, i)
    ensures NoneFires(fs, 0, i + 1)
  {
  }

  /** The first triggering fragment is the only one with no trigger before it. */
  lemma FirstFireUnique(fs: seq<Fragment>, k: nat)
    requires k < |fs| && Fires(fs, k) && NoneFires(fs, 0, k)
    ensures FirstFireFrom(fs, 0) == Some(k)
  {
  }

  /** What a request's stream leads to: a reply with the stripped accumulated
      text at the first triggering fragment; otherwise the backend's error, if it
      raises, or silence. */
  function Outcome(b: Backend): StreamEnd {
    match FirstFireFrom(b.fragments, 0)
    case Some(k) => Replied(Strip(Accumulated(b.fragments[..k + 1])))
    case None => if b.raises then Raised else Exhausted
  }

  /** A reply happens exactly when some fragment triggers it, and its text is
      non-empty and stripped; the backend's error is reported exactly when it
      raises and no fragment triggered a reply. */
  lemma OutcomeSpec(b: Backend)
    ensures Outcome(b).Replied? <==> exists k :: 0 <= k < |b.fragments| && Fires(b.fragments, k)
    ensures Outcome(b).Raised? <==> b.raises && NoneFires(b.fragments, 0, |b.fragments|)
    ensures Outcome(b).Exhausted? <==> !b.raises && NoneFires(b.fragments, 0, |b.fragments|)
    ensures Outcome(b).Replied? ==>
              var t := Outcome(b).text;
              t != "" && !IsSpace(t[0]) && !IsSpace(t[|t| - 1])
  {
    var first := FirstFireFrom(b.fragments, 0);
    if first.Some? {
      OutcomeAt(b, first.value);
      assert Fires(b.fragments, first.value);
    } else {
      OutcomeNone(b);
    }
  }

  /** What the response handler decides for the accumulated text. */
  datatype Decision = NothingToSend | NotDone | Send(text: string)

  /** The response handler's decision: nothing when the stripped accumulator is
      empty, otherwise send it if the fragment is `done`, otherwise keep going. */
  function HandleResponse(done: bool, fullResponse: string): (d: Decision)
    ensures d.Send? <==> done && Strip(fullResponse) != ""
    ensures d.Send? ==> d.text == Strip(fullResponse)
    ensures d.NothingToSend? <==> Strip(fullResponse) == ""
  {
    var stripped := Strip(fullResponse);
    if stripped == "" then NothingToSend
    else if done then Send(stripped)
    else NotDone
  }

  /** The request loop: skip fragments without a message, accumulate the rest,
      consult the handler on a sentence end or on `done`, and stop at the first
      reply. */
  method ConsumeStream(b: Backend) returns (outcome: StreamEnd)
    ensures outcome == Outcome(b)
  {
    var fs := b.fragments;
    var fullResponse := "";
    var i := 0;
    while i < |fs|
      invariant 0 <= i <= |fs|
      invariant fullResponse == Accumulated(fs[..i])
      invariant NoneFires(fs, 0, i)
    {
      assert fs[..i + 1][..i] == fs[..i];
      var f := fs[i];
      if f.message.Some? {
        var chunk := ChunkText(f.message.value);
        fullResponse := fullResponse + chunk;
        if HasAnyOf(chunk, SentenceEnds) || f.done {
          var d := HandleResponse(f.done, fullResponse);
          if d.Send? {
            FirstFireUnique(fs, i);
            OutcomeAt(b, i);
            return Replied(d.text);
          }
        }
      }
      NoneFiresExtend(fs, i);
      i := i + 1;
    }
    OutcomeNone(b);
    outcome := if b.raises then Raised else Exhausted;
  }

  /** The outcome of a stream in which no fragment triggers a reply. */
  lemma OutcomeNone(b: Backend)
    requires NoneFires(b.fragments, 0, |b.fragments|)
    ensures Outcome(b) == if b.raises then Raised else Exhausted
  {
    if FirstFireFrom(b.fragments, 0).Some? {
      assert false;
    }
  }

  /** Accumulation distributes over concatenation of fragment runs. */
  lemma AccumulatedAppend(a: seq<Fragment>, b: seq<Fragment>)
    ensures Accumulated(a + b) == Accumulated(a) + Accumulated(b)
  {
    JoinAppend(Piece, a, b);
  }

  /** Once a reply is triggered the loop stops: whatever the backend would have
      streamed or raised afterwards changes nothing. */
  lemma LaterFragmentsIgnored(fs: seq<Fragment>, rest: seq<Fragment>, raises: bool, raisesLater: bool)
    requires Outcome(Backend(fs, raises)).Replied?
    ensures Outcome(Backend(fs + rest, raisesLater)) == Outcome(Backend(fs, raises))
  {
    var all := fs + rest;
    var first := FirstFireFrom(fs, 0);
    if first.None? {
      OutcomeNone(Backend(fs, raises));
    }
    var k := first.value;
    assert Fires(fs, k) && NoneFires(fs, 0, k);
    forall j | 0 <= j < k ensures !Fires(all, j) {
      PrefixKept(fs, rest, j);
      assert !Fires(fs, j);
    }
    PrefixKept(fs, rest, k);
    FirstFireUnique(all, k);
    OutcomeAt(Backend(fs, raises), k);
    OutcomeAt(Backend(all, raisesLater), k);
  }

  /** Appending fragments leaves the earlier ones and their accumulators alone. */
  lemma PrefixKept(fs: seq<Fragment>, rest: seq<Fragment>, j: nat)
    requires j < |fs|
    ensures (fs + rest)[..j + 1] == fs[..j + 1] && (fs + rest)[j] == fs[j]
  {
  }

  /** `fs` with a message-less fragment inserted at `i`. */
  function WithSkip(fs: seq<Fragment>, i: nat, done: bool): (r: seq<Fragment>)
    requires i <= |fs|
    ensures |r| == |fs| + 1
  {
    fs[..i] + [Fragment(None, done)] + fs[i..]
  }

  /** Where fragment `k` ends up once a fragment is inserted at `i`. */
  function Moved(i: nat, k: nat): nat {
    if k < i then k else k + 1
  }

  /** The accumulator after a run with a message-less fragment inserted at `i`. */
  lemma AccumulatedWithSkip(fs: seq<Fragment>, i: nat, done: bool, j: nat)
    requires i <= |fs| && j <= |fs| + 1
    ensures Accumulated(WithSkip(fs, i, done)[..j])
            == if j <= i then Accumulated(fs[..j]) else Accumulated(fs[..j - 1])
  {
    var fs' := WithSkip(fs, i, done);
    if j <= i {
      assert fs'[..j] == fs[..j];
    } else {
      assert fs'[..j] == fs[..i] + [Fragment(None, done)] + fs[i..j - 1];
      AccumulatedAppend(fs[..i] + [Fragment(None, done)], fs[i..j - 1]);
      AccumulatedAppend(fs[..i], [Fragment(None, done)]);
      assert Accumulated([Fragment(None, done)]) == "" by {
        assert [Fragment(None, done)][..0] == [];
      }
      AccumulatedAppend(fs[..i], fs[i..j - 1]);
      assert fs[..i] + fs[i..j - 1] == fs[..j - 1];
    }
  }

  /** Fragment `j` before the insertion point stays where it was and sees the
      same accumulator. */
  lemma SkipKeepsBefore(fs: seq<Fragment>, i: nat, done: bool, j: nat)
    requires i <= |fs| && j < i
    ensures WithSkip(fs, i, done)[j] == fs[j]
    ensures Accumulated(WithSkip(fs, i, done)[..j + 1]) == Accumulated(fs[..j + 1])
  {
    AccumulatedWithSkip(fs, i, done, j + 1);
  }

  /** After a message-less fragment inserted at `i`, fragment `j` is the old
      fragment `j - 1` and sees the same accumulator it saw before. */
  lemma SkipShiftsAfter(fs: seq<Fragment>, i: nat, done: bool, j: nat)
    requires i <= |fs| && i < j < |fs| + 1
    ensures WithSkip(fs, i, done)[j] == fs[j - 1]
    ensures Accumulated(WithSkip(fs, i, done)[..j + 1]) == Accumulated(fs[..j])
  {
    AccumulatedWithSkip(fs, i, done, j + 1);
  }

  /** With a message-less fragment inserted at `i`, fragment `j` triggers exactly
      when the fragment it was before the insertion does; the inserted one never does. */
  lemma FiresWithSkip(fs: seq<Fragment>, i: nat, done: bool, j: nat)
    requires i <= |fs| && j < |fs| + 1
    ensures j < i ==> (Fires(WithSkip(fs, i, done), j) <==> Fires(fs, j))
    ensures j == i ==> !Fires(WithSkip(fs, i, done), j)
    ensures i < j ==> (Fires(WithSkip(fs, i, done), j) <==> Fires(fs, j - 1))
  {
    if j < i {
      SkipKeepsBefore(fs, i, done, j);
    } else if i < j {
      SkipShiftsAfter(fs, i, done, j);
    } else {
      assert WithSkip(fs, i, done)[j] == Fragment(None, done);
    }
  }

  /** A fragment without a message is skipped, even when it carries `done`:
      inserting one anywhere in the stream does not change how the request ends. */
  lemma SkippedFragmentIgnored(b: Backend, i: nat, done: bool)
    requires i <= |b.fragments|
    ensures Outcome(Backend(b.fragments[..i] + [Fragment(None, done)] + b.fragments[i..], b.raises))
            == Outcome(b)
  {
    var fs := b.fragments;
    assert fs[..i] + [Fragment(None, done)] + fs[i..] == WithSkip(fs, i, done);
    var first := FirstFireFrom(fs, 0);
    if first.Some? {
      SkipKeepsReply(b, i, done, first.value);
    } else {
      SkipNoneFires(fs, i, done);
      OutcomeNone(b);
      OutcomeNone(Backend(WithSkip(fs, i, done), b.raises));
    }
  }

  /** A stream with no trigger has none after the insertion either. */
  lemma SkipNoneFires(fs: seq<Fragment>, i: nat, done: bool)
    requires i <= |fs| && NoneFires(fs, 0, |fs|)
    ensures NoneFires(WithSkip(fs, i, done), 0, |fs| + 1)
  {
    forall j | 0 <= j < |fs| + 1 ensures !Fires(WithSkip(fs, i, done), j) {
      FiresWithSkip(fs, i, done, j);
    }
  }

  /** The reply case of `SkippedFragmentIgnored`: the trigger moves, its text does not. */
  lemma SkipKeepsReply(b: Backend, i: nat, done: bool, k: nat)
    requires i <= |b.fragments| && FirstFireFrom(b.fragments, 0) == Some(k)
    ensures Outcome(Backend(WithSkip(b.fragments, i, done), b.raises)) == Outcome(b)
  {
    SkipMovesFirstFire(b.fragments, i, done, k);
    SkipKeepsText(b.fragments, i, done, k);
    OutcomeAt(b, k);
    OutcomeAt(Backend(WithSkip(b.fragments, i, done), b.raises), Moved(i, k));
  }

  /** The fragment that was at `k` sees the same accumulator after the insertion. */
  lemma SkipKeepsText(fs: seq<Fragment>, i: nat, done: bool, k: nat)
    requires i <= |fs| && k < |fs|
    ensures Accumulated(WithSkip(fs, i, done)[..Moved(i, k) + 1]) == Accumulated(fs[..k + 1])
  {
    if k < i {
      SkipKeepsBefore(fs, i, done, k);
    } else {
      SkipShiftsAfter(fs, i, done, k + 1);
    }
  }

  /** The outcome of a stream whose first trigger is at `k`. */
  lemma OutcomeAt(b: Backend, k: nat)
    requires k < |b.fragments| && FirstFireFrom(b.fragments, 0) == Some(k)
    ensures Outcome(b) == Replied(Strip(Accumulated(b.fragments[..k + 1])))
  {
  }

  /** After the insertion, the first trigger is the old first trigger, moved up
      by one when it came at or after the inserted fragment. */
  lemma SkipMovesFirstFire(fs: seq<Fragment>, i: nat, done: bool, k: nat)
    requires i <= |fs| && FirstFireFrom(fs, 0) == Some(k)
    ensures FirstFireFrom(WithSkip(fs, i, done), 0) == Some(Moved(i, k))
  {
    SkipFiresAt(fs, i, done, k);
    SkipNoneFiresBefore(fs, i, done, k);
    FirstFireUnique(WithSkip(fs, i, done), Moved(i, k));
  }

  /** The old trigger at `k` still triggers after the insertion, at its new index. */
  lemma SkipFiresAt(fs: seq<Fragment>, i: nat, done: bool, k: nat)
    requires i <= |fs| && k < |fs| && Fires(fs, k)
    ensures Fires(WithSkip(fs, i, done), Moved(i, k))
  {
    FiresWithSkip(fs, i, done, Moved(i, k));
  }

  /** No fragment before the trigger's new index triggers after the insertion. */
  lemma SkipNoneFiresBefore(fs: seq<Fragment>, i: nat, done: bool, k: nat)
    requires i <= |fs| && k < |fs| && NoneFires(fs, 0, k)
    ensures NoneFires(WithSkip(fs, i, done), 0, Moved(i, k))
  {
    forall j | 0 <= j < Moved(i, k) ensures !Fires(WithSkip(fs, i, done), j) {
      FiresWithSkip(fs, i, done, j);
    }
  }

  /** A request streaming "Hi", " there." and then " More" with `done` gets one
      reply with the whole text, not one per sentence. */
  lemma SingleReplyExample()
    ensures Outcome(Backend([Fragment(Some(Chunk(Some("Hi"))), false),
                             Fragment(Some(Chunk(Some(" there."))), false),
                             Fragment(Some(Chunk(Some(" More"))), true)], false))
            == Replied("Hi there. More")
  {
    var f0 := Fragment(Some(Chunk(Some("Hi"))), false);
    var f1 := Fragment(Some(Chunk(Some(" there."))), false);
    var f2 := Fragment(Some(Chunk(Some(" More"))), true);
    var fs := [f0, f1, f2];
    AccumulatedAppend([], [f0]);
    AccumulatedAppend([f0], [f1]);
    AccumulatedAppend([f0, f1], [f2]);
    assert fs[..3] == [f0, f1] + [f2] && [f0, f1] == [f0] + [f1];
    var text := Accumulated(fs[..3]);
    assert text == "Hi there. More";
    StripKeeps(text);
    assert !fs[0].done && !fs[1].done;
    assert Fires(fs, 2);
    FirstFireUnique(fs, 2);
    OutcomeAt(Backend(fs, false), 2);
  }

  /** A stream that finishes at once with empty content sends nothing. */
  lemma EmptyDoneExample()
    ensures Outcome(Backend([Fragment(Some(Chunk(Some(""))), true)], false)) == Exhausted
  {
    var fs := [Fragment(Some(Chunk(Some(""))), true)];
    assert fs[..1] == fs;
    assert Accumulated(fs) == "";
  }
}
