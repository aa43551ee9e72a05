/** The audit journal: a chain of events, each digest covering its content and the digest before it. */
module AuditJournal {
  import opened Options

  /** What a digest covers: everything but the digest itself and the time of creation. */
  datatype Content = Content(sequence: nat, input: Input, previousDigest: string)

  datatype Input = Input(eventType: string, aggregateType: string, aggregateId: string, payloadDigest: string,
                         correlationId: string, causationId: string)

  datatype Event = Event(content: Content, digest: string, createdAt: int)

  datatype Error = ZeroSequence | TypeRequired | PayloadRequired | SequenceMismatch | PreviousMismatch | DigestMismatch | EmptyStream

  datatype Result<+T> = Ok(value: T) | Err(error: Error)

  /** The digest of an event's content; injective where a lemma says so. */
  type Hash = Content -> string

  ghost predicate Injective(h: Hash) {
    forall a, b :: h(a) == h(b) ==> a == b
  }

  function Build(h: Hash, sequence: nat, previousDigest: string, input: Input, now: int): Result<Event> {
    if sequence == 0 then Err(ZeroSequence)
    else if input.eventType == "" then Err(TypeRequired)
    else if input.payloadDigest == "" then Err(PayloadRequired)
    else
      var content := Content(sequence, input, previousDigest);
      Ok(Event(content, h(content), now))
  }

  // ---- what a stream of appends leaves, and what a verified stream is ----

  function LastDigest(events: seq<Event>): string {
    if events == [] then "" else events[|events| - 1].digest
  }

  datatype Append = Append(input: Input, now: int)

  /** The journal after a history of appends, refused ones included. */
  function Appended(h: Hash, appends: seq<Append>): seq<Event> {
    if appends == [] then []
    else
      var events := Appended(h, appends[..|appends| - 1]);
      var last := appends[|appends| - 1];
      match Build(h, |events| + 1, LastDigest(events), last.input, last.now)
      case Ok(event) => events + [event]
      case Err(_) => events
  }

  predicate LinkOk(h: Hash, events: seq<Event>, i: nat)
    requires i < |events|
  {
    var c := events[i].content;
    && c.sequence == i + 1
    && c.previousDigest == (if i == 0 then "" else events[i - 1].digest)
    && c.input.eventType != "" && c.input.payloadDigest != ""
    && events[i].digest == h(c)
  }

  predicate Chained(h: Hash, events: seq<Event>) {
    forall i | 0 <= i < |events| :: LinkOk(h, events, i)
  }

  lemma {:induction false} ChainedSnoc(h: Hash, events: seq<Event>, event: Event)
    ensures Chained(h, events + [event]) <==>
      Chained(h, events) && Build(h, |events| + 1, LastDigest(events), event.content.input, event.createdAt) == Ok(event)
  {
    var longer := events + [event];
    assert longer[|events|] == event;
    forall i | 0 <= i < |events| ensures LinkOk(h, longer, i) <==> LinkOk(h, events, i) {}
    if Chained(h, longer) {
      forall i | 0 <= i < |events| ensures LinkOk(h, events, i) { assert LinkOk(h, longer, i); }
      assert LinkOk(h, longer, |events|);
    }
  }

  /** Every history of appends leaves a chained stream. */
  lemma {:induction false} AppendsAreChained(h: Hash, appends: seq<Append>)
    ensures Chained(h, Appended(h, appends))
  {
    if appends != [] {
      var before := appends[..|appends| - 1];
      AppendsAreChained(h, before);
      var events, last := Appended(h, before), appends[|appends| - 1];
      match Build(h, |events| + 1, LastDigest(events), last.input, last.now) {
        case Ok(event) => ChainedSnoc(h, events, event);
        case Err(_) =>
      }
    }
  }

  /** The appends that would leave this stream. */
  function AppendsOf(events: seq<Event>): seq<Append> {
    seq(|events|, i requires 0 <= i < |events| => Append(events[i].content.input, events[i].createdAt))
  }

  /** A stream is chained exactly when appends built it. */
  lemma {:induction false} ChainedExactlyAppended(h: Hash, events: seq<Event>)
    ensures Chained(h, events) <==> Appended(h, AppendsOf(events)) == events
  {
    if Appended(h, AppendsOf(events)) == events {
      AppendsAreChained(h, AppendsOf(events));
    } else if Chained(h, events) {
      ChainedIsAppended(h, events);
      assert false;
    }
  }

  lemma {:induction false} ChainedIsAppended(h: Hash, events: seq<Event>)
    requires Chained(h, events)
    ensures Appended(h, AppendsOf(events)) == events
  {
    if events != [] {
      var before, event := events[..|events| - 1], events[|events| - 1];
      assert events == before + [event];
      ChainedSnoc(h, before, event);
      ChainedIsAppended(h, before);
      assert AppendsOf(events)[..|events| - 1] == AppendsOf(before);
    }
  }

  // ---- one digest fixes the whole history before it ----

  /** Equal content in every event; the times of creation may differ. */
  predicate SameContent(a: seq<Event>, b: seq<Event>) {
    |a| == |b| && forall i | 0 <= i < |a| :: a[i].content == b[i].content && a[i].digest == b[i].digest
  }

  /** If two chained streams share a digest anywhere, it stands at the same place and everything up to it is equal. */
  lemma {:induction false} SharedDigestFixesHistory(h: Hash, a: seq<Event>, i: nat, b: seq<Event>, j: nat)
    requires Injective(h) && Chained(h, a) && Chained(h, b)
    requires i < |a| && j < |b| && a[i].digest == b[j].digest
    ensures i == j && SameContent(a[..i + 1], b[..j + 1])
    decreases i
  {
    assert LinkOk(h, a, i) && LinkOk(h, b, j);
    assert a[i].content == b[j].content;
    if i > 0 {
      SharedDigestFixesHistory(h, a, i - 1, b, j - 1);
      assert SameContent(a[..i], b[..i]);
      forall k | 0 <= k < i ensures a[k].content == b[k].content && a[k].digest == b[k].digest {
        assert a[..i][k] == a[k] && b[..i][k] == b[k];
      }
    }
  }

  /** Two chained streams have equal root digests exactly when they have equal content throughout. */
  lemma {:induction false} RootDigestDeterminesStream(h: Hash, a: seq<Event>, b: seq<Event>)
    requires Injective(h) && Chained(h, a) && Chained(h, b) && a != [] && b != []
    ensures LastDigest(a) == LastDigest(b) <==> SameContent(a, b)
  {
    if LastDigest(a) == LastDigest(b) {
      SharedDigestFixesHistory(h, a, |a| - 1, b, |b| - 1);
      assert a[..|a|] == a && b[..|b|] == b;
    }
  }

  /** The digest does not cover the time of creation: changing it alone is never noticed. */
  lemma {:induction false} CreationTimesAreNotCovered(h: Hash, events: seq<Event>, i: nat, time: int)
    requires i < |events|
    ensures Chained(h, events[i := events[i].(createdAt := time)]) <==> Chained(h, events)
  {
    var changed := events[i := events[i].(createdAt := time)];
    forall k | 0 <= k < |events| ensures LinkOk(h, changed, k) <==> LinkOk(h, events, k) {}
    if Chained(h, changed) {
      forall k | 0 <= k < |events| ensures LinkOk(h, events, k) { assert LinkOk(h, changed, k); }
    }
  }

  // ---- the running code ----

  class Journal {
    const digest: Hash
    var events: seq<Event>

    ghost predicate Valid() reads this { Chained(digest, events) }

    constructor (digest: Hash)
      ensures Valid() && events == [] && this.digest == digest
    {
      this.digest, events := digest, [];
    }

    method AppendInput(input: Input, now: int) returns (r: Result<Event>)
      requires Valid()
      modifies this`events
      ensures Valid()
      ensures forall appends | old(events) == Appended(digest, appends) :: events == Appended(digest, appends + [Append(input, now)])
      ensures match r
        case Ok(event) => events == old(events) + [event] && event.content.input == input && event.createdAt == now
        case Err(_) => events == old(events) && (input.eventType == "" || input.payloadDigest == "")
    {
      var prev := "";
      if |events| > 0 {
        prev := events[|events| - 1].digest;
      }
      r := Build(digest, |events| + 1, prev, input, now);
      ghost var before := events;
      if r.Ok? {
        ChainedSnoc(digest, events, r.value);
        events := events + [r.value];
      }
      forall appends | before == Appended(digest, appends) ensures events == Appended(digest, appends + [Append(input, now)]) {
        var longer := appends + [Append(input, now)];
        assert longer[..|longer| - 1] == appends;
      }
    }
  }

  method Verify(h: Hash, events: seq<Event>) returns (error: Option<Error>)
    ensures error == None <==> Chained(h, events)
  {
    var prev := "";
    var i := 0;
    while i < |events|
      invariant 0 <= i <= |events|
      invariant forall k | 0 <= k < i :: LinkOk(h, events, k)
      invariant prev == if i == 0 then "" else events[i - 1].digest
    {
      var content := events[i].content;
      if content.sequence != i + 1 {
        assert !LinkOk(h, events, i);
        return Some(SequenceMismatch);
      }
      if content.previousDigest != prev {
        assert !LinkOk(h, events, i);
        return Some(PreviousMismatch);
      }
      var rebuilt := Build(h, content.sequence, content.previousDigest, content.input, events[i].createdAt);
      if rebuilt.Err? {
        assert !LinkOk(h, events, i);
        return Some(rebuilt.error);
      }
      if rebuilt.value.digest != events[i].digest {
        assert !LinkOk(h, events, i);
        return Some(DigestMismatch);
      }
      prev := events[i].digest;
      i := i + 1;
    }
    error := None;
  }

  datatype Checkpoint = Checkpoint(firstSequence: nat, lastSequence: nat, eventCount: nat, rootDigest: string, createdAt: int)

  /** A checkpoint is given exactly for a non-empty chained stream, and names its length and root. */
  method NewCheckpoint(h: Hash, events: seq<Event>, now: int) returns (r: Result<Checkpoint>)
    ensures r.Ok? <==> events != [] && Chained(h, events)
    ensures r.Ok? ==> r.value == Checkpoint(1, |events|, |events|, LastDigest(events), now)
  {
    if |events| == 0 { return Err(EmptyStream); }
    var error := Verify(h, events);
    if error.Some? { return Err(error.value); }
    assert LinkOk(h, events, 0) && LinkOk(h, events, |events| - 1);
    r := Ok(Checkpoint(events[0].content.sequence, events[|events| - 1].content.sequence, |events|,
                       events[|events| - 1].digest, now));
  }
}
