/** The live progress log: bounded channels of numbered events, reachable under several keys at once. */
module ProgressBuffer {
  import opened Prelude

  const MAX_PROGRESS_EVENTS := 256

  /** A progress id or a case id; both address channels. */
  datatype Key = Key(text: string)

  /** An event id names the channel's own progress id and the event's number in it. */
  datatype ProgressEvent = ProgressEvent(
    id: (Key, nat), progressId: Key, caseId: Option<Key>, sequence: nat, content: string)

  datatype ProgressError = InvalidProgressId

  predicate IdCharacter(c: char) {
    'A' <= c <= 'Z' || 'a' <= c <= 'z' || '0' <= c <= '9'
  }

  predicate WellFormedId(key: Key) {
    var id := key.text;
    && 8 <= |id| <= 128 && IdCharacter(id[0])
    && forall i :: 1 <= i < |id| ==> IdCharacter(id[i]) || id[i] in "._:-"
  }

  /** A letter or digit, followed by 7 to 127 of these or of four marks. */
  predicate IsIdOf(text: string, head: char, tail: string) {
    && text == [head] + tail && 7 <= |tail| && |tail| <= 127 && IdCharacter(head)
    && forall c :: c in tail ==> IdCharacter(c) || c == '.' || c == '_' || c == ':' || c == '-'
  }

  lemma WellFormedMeans(key: Key)
    ensures WellFormedId(key) <==> exists head: char, tail: string :: IsIdOf(key.text, head, tail)
  {
    var id := key.text;
    if WellFormedId(key) {
      assert IsIdOf(id, id[0], id[1..]);
    }
    if head: char, tail: string :| IsIdOf(id, head, tail) {
      forall i | 1 <= i < |id| ensures IdCharacter(id[i]) || id[i] in "._:-" {
        assert id[i] == tail[i-1] && id[i] in tail;
      }
    }
  }

  // ---------------------------------------------------------------- one channel

  /** Everything a channel ever emitted, numbered from one. */
  predicate Numbered(emitted: seq<ProgressEvent>, progressId: Key) {
    forall i :: 0 <= i < |emitted| ==>
      emitted[i].sequence == i + 1 && emitted[i].id == (progressId, i + 1) && emitted[i].progressId == progressId
  }

  function Newest(emitted: seq<ProgressEvent>): seq<ProgressEvent> {
    if |emitted| <= MAX_PROGRESS_EVENTS then emitted else emitted[|emitted| - MAX_PROGRESS_EVENTS..]
  }

  class ProgressChannel {
    const progressId: Key
    var caseId: Option<Key>
    var events: seq<ProgressEvent>
    var nextSequence: nat
    ghost var emitted: seq<ProgressEvent>

    /** The channel holds exactly its newest events, numbered without a gap. */
    ghost predicate Valid()
      reads `events, `nextSequence, `emitted
    {
      Numbered(emitted, progressId) && nextSequence == |emitted| + 1 && events == Newest(emitted)
    }

    constructor (progressId: Key)
      ensures Valid() && this.progressId == progressId && caseId == None && emitted == []
    {
      this.progressId, caseId, events, nextSequence, emitted := progressId, None, [], 1, [];
    }

    method Emit(content: string) returns (event: ProgressEvent)
      requires Valid()
      modifies this
      ensures Valid() && caseId == old(caseId) && emitted == old(emitted) + [event]
      ensures event == ProgressEvent((progressId, |emitted|), progressId, caseId, |emitted|, content)
    {
      var sequence := nextSequence;
      nextSequence := nextSequence + 1;
      event := ProgressEvent((progressId, sequence), progressId, caseId, sequence, content);
      events := events + [event];
      emitted := emitted + [event];
      if |events| > MAX_PROGRESS_EVENTS {
        events := events[|events| - MAX_PROGRESS_EVENTS..];
      }
    }
  }

  // ---------------------------------------------------------------- the buffer

  /** Progress ids tell the channels apart, and each of them is among the keys. */
  ghost predicate Named(made: set<ProgressChannel>, keys: set<Key>) {
    && (forall ch :: ch in made ==> ch.progressId in keys)
    && (forall a, b :: a in made && b in made && a.progressId == b.progressId ==> a == b)
  }

  lemma NamedAnew(made: set<ProgressChannel>, keys: set<Key>, ch: ProgressChannel)
    requires Named(made, keys) && ch.progressId !in keys
    ensures Named(made + {ch}, keys + {ch.progressId})
  {
  }

  lemma NamedStill(made: set<ProgressChannel>, keys: set<Key>, key: Key)
    requires Named(made, keys)
    ensures Named(made, keys + {key})
  {
  }

  /** The keys after reaching a channel under a progress id and, unless it is taken, under a case id. */
  function KeysTo(channels: map<Key, ProgressChannel>, progressId: Key, caseId: Option<Key>,
                 channel: ProgressChannel): map<Key, ProgressChannel> {
    var reached := channels[progressId := channel];
    if caseId.None? || caseId.value in reached then reached else reached[caseId.value := channel]
  }

  class RecoveryProgressBuffer {
    var channels: map<Key, ProgressChannel>
    /** Every channel made since the buffer was last cleared, reachable or not. */
    ghost var made: set<ProgressChannel>

    /** No two channels share a progress id, and the key of its own progress id is never freed. */
    ghost predicate Valid()
      reads this, made
    {
      && (forall key {:trigger channels[key]} :: key in channels ==> channels[key] in made)
      && (forall ch :: ch in made ==> ch.Valid())
      && Named(made, channels.Keys)
    }

    constructor ()
      ensures Valid() && channels == map[] && made == {}
    {
      channels, made := map[], {};
    }

    /** A new channel, under a key that is still free. */
    method Open(progressId: Key) returns (channel: ProgressChannel)
      requires Valid() && progressId !in channels
      modifies this
      ensures Valid() && fresh(channel) && channel in made
      ensures channel.progressId == progressId && channel.emitted == [] && channel.caseId == None
      ensures made == old(made) + {channel} && channels == old(channels)[progressId := channel]
    {
      hide Numbered, Newest, Named;
      channel := new ProgressChannel(progressId);
      NamedAnew(made, channels.Keys, channel);
      made := made + {channel};
      channels := channels[progressId := channel];
      assert channels.Keys == old(channels).Keys + {progressId};
    }

    /** A case key leads to the first channel attached under it; attaching another changes nothing. */
    method Attach(channel: ProgressChannel, caseId: Key)
      requires Valid() && channel in made
      modifies this`channels, channel`caseId
      ensures Valid() && channels == if caseId in old(channels) then old(channels) else old(channels)[caseId := channel]
      ensures channel.caseId == if caseId in old(channels) && old(channels)[caseId] != channel then old(channel.caseId)
                                else Some(caseId)
    {
      hide Numbered, Newest, Named, ProgressChannel.Valid;
      if caseId in channels && channels[caseId] != channel {
        return;
      }
      NamedStill(made, channels.Keys, caseId);
      channel.caseId := Some(caseId);
      channels := channels[caseId := channel];
      assert channels.Keys == old(channels).Keys + {caseId};
      assert caseId in old(channels) ==> channels == old(channels);
    }

    /** Reach the case's channel under the progress id too, or else the id's own channel. A key that
        already led somewhere is re-pointed exactly when it is the progress id and the case already
        has a different channel; that holds for case keys as for any other. */
    method Start(progressId: Key, caseId: Option<Key>) returns (r: Option<ProgressError>)
      requires Valid()
      modifies this, made
      ensures Valid()
      ensures r.Some? <==> !WellFormedId(progressId)
      ensures r.Some? ==> channels == old(channels) && made == old(made)
      ensures old(made) <= made && fresh(made - old(made))
      ensures forall ch :: ch in old(made) ==> ch.emitted == old(ch.emitted)
      ensures forall ch :: ch in made - old(made) ==> ch.emitted == [] && ch.progressId == progressId
      ensures r.None? ==>
        progressId in channels && channels == KeysTo(old(channels), progressId, caseId, channels[progressId])
      ensures r.None? ==>
        if caseId.Some? && caseId.value in old(channels) then channels[progressId] == old(channels)[caseId.value]
        else if progressId in old(channels) then channels[progressId] == old(channels)[progressId]
        else fresh(channels[progressId])
      ensures forall key :: key in old(channels) ==> key in channels
      ensures forall key :: key in old(channels) ==>
        (channels[key] != old(channels)[key] <==>
           r.None? && key == progressId && caseId.Some? && caseId.value in old(channels)
           && old(channels)[caseId.value] != old(channels)[key])
    {
      hide Numbered, Newest, WellFormedId, Named;
      if !WellFormedId(progressId) {
        return Some(InvalidProgressId);
      }
      var channel := Choose(progressId, caseId);
      if caseId.Some? {
        Attach(channel, caseId.value);
      }
      r := None;
    }

    /** The channel a progress id shall lead to: the case's, else its own, else a new one. */
    method Choose(progressId: Key, caseId: Option<Key>) returns (channel: ProgressChannel)
      requires Valid()
      modifies this
      ensures Valid() && channel in made && channels == old(channels)[progressId := channel]
      ensures if caseId.Some? && caseId.value in old(channels) then
                channel == old(channels)[caseId.value] && made == old(made)
              else if progressId in old(channels) then channel == old(channels)[progressId] && made == old(made)
              else
                && fresh(channel) && made == old(made) + {channel}
                && channel.emitted == [] && channel.progressId == progressId
    {
      hide Numbered, Newest, WellFormedId, Named;
      if caseId.Some? && caseId.value in channels {
        channel := channels[caseId.value];
        NamedStill(made, channels.Keys, progressId);
        channels := channels[progressId := channel];
        assert channels.Keys == old(channels).Keys + {progressId};
      } else if progressId in channels {
        channel := channels[progressId];
        assert channels == old(channels)[progressId := channel];
      } else {
        channel := Open(progressId);
      }
    }

    /** Number the event in the channel behind the key, and in no other. No key is re-pointed. */
    method Append(progressId: Key, caseId: Option<Key>, content: string)
      returns (r: Result<ProgressEvent, ProgressError>)
      requires Valid()
      modifies this, made
      ensures Valid()
      ensures r.Err? <==> !WellFormedId(progressId)
      ensures r.Err? ==> channels == old(channels) && made == old(made)
      ensures forall key :: key in old(channels) ==> key in channels && channels[key] == old(channels)[key]
      ensures old(made) <= made && fresh(made - old(made))
      ensures r.Ok? ==>
        progressId in channels && channels == KeysTo(old(channels), progressId, caseId, channels[progressId])
      ensures r.Ok? && progressId !in old(channels) ==> fresh(channels[progressId])
      ensures r.Ok? && progressId in old(channels) ==>
        channels[progressId].emitted == old(channels[progressId].emitted) + [r.value]
      ensures r.Ok? && progressId !in old(channels) ==> channels[progressId].emitted == [r.value]
      ensures r.Ok? ==> r.value.content == content && r.value.caseId == channels[progressId].caseId
      ensures forall ch :: ch in made && (r.Ok? ==> ch != channels[progressId]) ==> ch in old(made) && unchanged(ch)
    {
      hide Numbered, Newest, WellFormedId, Named;
      if !WellFormedId(progressId) {
        return Err(InvalidProgressId);
      }
      var channel: ProgressChannel;
      if progressId in channels {
        channel := channels[progressId];
      } else {
        channel := Open(progressId);
      }
      if caseId.Some? {
        Attach(channel, caseId.value);
      }
      var event := channel.Emit(content);
      r := Ok(event);
    }

    method Snapshot(key: Key) returns (r: Result<seq<ProgressEvent>, ProgressError>)
      requires Valid()
      ensures r == if !WellFormedId(key) then Err(InvalidProgressId)
                   else if key in channels then Ok(Newest(channels[key].emitted)) else Ok([])
    {
      if !WellFormedId(key) {
        return Err(InvalidProgressId);
      }
      r := Ok(if key in channels then channels[key].events else []);
    }

    /** The held events past the cursor: the rest of the channel, but for what was already trimmed. */
    method After(key: Key, cursor: int) returns (r: Result<seq<ProgressEvent>, ProgressError>)
      requires Valid()
      ensures r == if !WellFormedId(key) then Err(InvalidProgressId)
                   else if key in channels then Ok(Rest(channels[key].emitted, cursor)) else Ok([])
    {
      var snapshot := Snapshot(key);
      if snapshot.Err? {
        return snapshot;
      }
      var later := Filter(snapshot.value, (e: ProgressEvent) => e.sequence > cursor);
      r := Ok(later);
    }

    method Clear()
      requires Valid()
      modifies this
      ensures Valid() && channels == map[] && made == {}
    {
      channels, made := map[], {};
    }
  }

  // ---------------------------------------------------------------- event ids

  /** Between clears no two events share an id, whichever keys their channels were reached under. */
  lemma EventIdsAreUnique(buffer: RecoveryProgressBuffer, a: ProgressChannel, b: ProgressChannel, i: nat, j: nat)
    requires buffer.Valid() && a in buffer.made && b in buffer.made
    requires i < |a.emitted| && j < |b.emitted| && a.emitted[i].id == b.emitted[j].id
    ensures a == b && i == j
  {
    assert a.Valid() && b.Valid();
  }

  /** A case key is not safe for good: with two cases under way, starting progress for the second one
      under the first one's key takes that key over. */
  method CaseKeyTakenOver(one: Key, two: Key, first: Key, second: Key) returns (buffer: RecoveryProgressBuffer)
    requires WellFormedId(one) && WellFormedId(two) && WellFormedId(first)
    requires one != two && one != first && one != second && two != first && two != second && first != second
    ensures buffer.Valid() && one in buffer.channels && first in buffer.channels && second in buffer.channels
    ensures buffer.channels[first] == buffer.channels[second] != buffer.channels[one]
  {
    hide WellFormedId, Named, Numbered, Newest, ProgressChannel.Valid;
    buffer := new RecoveryProgressBuffer();
    var a := buffer.Start(one, Some(first));
    assert buffer.channels.Keys == {one, first};
    var b := buffer.Start(two, Some(second));
    assert buffer.channels[two] != buffer.channels[one];
    var c := buffer.Start(first, Some(second));
  }

  // ---------------------------------------------------------------- a reader with a cursor

  function Rest(emitted: seq<ProgressEvent>, cursor: int): seq<ProgressEvent> {
    Filter(Newest(emitted), (e: ProgressEvent) => e.sequence > cursor)
  }

  /** The first event a reader can still get: just past the cursor, or the oldest one still held. */
  function ResumesAt(emitted: seq<ProgressEvent>, cursor: int): nat {
    var oldest := if |emitted| <= MAX_PROGRESS_EVENTS then 0 else |emitted| - MAX_PROGRESS_EVENTS;
    if cursor < oldest then oldest else if cursor > |emitted| then |emitted| else cursor
  }

  /** A read yields one unbroken stretch of the log, up to its newest event. */
  lemma ReadIsAStretch(emitted: seq<ProgressEvent>, progressId: Key, cursor: int)
    requires Numbered(emitted, progressId)
    ensures Rest(emitted, cursor) == emitted[ResumesAt(emitted, cursor)..]
  {
    var held := Newest(emitted);
    var trimmed := |emitted| - |held|;
    assert forall i :: 0 <= i < |held| ==> held[i] == emitted[trimmed + i];
    FilterSuffix(held, ResumesAt(emitted, cursor) - trimmed, (e: ProgressEvent) => e.sequence > cursor);
  }

  /** A reader misses nothing exactly when it lags by at most the capacity of the channel. */
  lemma NothingIsMissed(emitted: seq<ProgressEvent>, progressId: Key, cursor: nat)
    requires Numbered(emitted, progressId) && cursor <= |emitted|
    ensures Rest(emitted, cursor) == emitted[cursor..] <==> |emitted| - cursor <= 256
  {
    ReadIsAStretch(emitted, progressId, cursor);
    assert |emitted[cursor..]| == |emitted| - cursor;
  }

  /** The stream loop: yield what is past the cursor and move the cursor to each event yielded. */
  method Drain(buffer: RecoveryProgressBuffer, key: Key, start: nat)
    returns (yielded: seq<ProgressEvent>, cursor: nat)
    requires buffer.Valid() && WellFormedId(key) && key in buffer.channels
    ensures yielded == Rest(buffer.channels[key].emitted, start)
    ensures cursor == CursorAfter(buffer.channels[key].emitted, start)
  {
    hide WellFormedId, Newest, Named;
    var later := buffer.After(key, start);
    yielded, cursor := Deliver(buffer.channels[key].emitted, buffer.channels[key].progressId, later.value, start);
  }

  method Deliver(ghost emitted: seq<ProgressEvent>, ghost progressId: Key, events: seq<ProgressEvent>, start: nat)
    returns (yielded: seq<ProgressEvent>, cursor: nat)
    requires Numbered(emitted, progressId) && events == Rest(emitted, start)
    ensures yielded == events && cursor == CursorAfter(emitted, start)
  {
    ReadIsAStretch(emitted, progressId, start);
    hide Rest, Newest;
    yielded, cursor := [], start;
    for i := 0 to |events|
      invariant yielded == events[..i]
      invariant cursor == if i == 0 then start else ResumesAt(emitted, start) + i
    {
      cursor := events[i].sequence;
      yielded := yielded + [events[i]];
    }
  }

  function CursorAfter(emitted: seq<ProgressEvent>, cursor: nat): nat {
    if cursor < |emitted| then |emitted| else cursor
  }

  /** What a reader has been given after reading the log at each of these moments. */
  function ReadAll(logs: seq<seq<ProgressEvent>>, cursor: nat): seq<ProgressEvent> {
    if logs == [] then []
    else Rest(logs[0], cursor) + ReadAll(logs[1..], CursorAfter(logs[0], cursor))
  }

  predicate NeverLagsTooFar(logs: seq<seq<ProgressEvent>>, cursor: nat) {
    && (logs != [] ==> cursor <= |logs[0]| <= cursor + MAX_PROGRESS_EVENTS)
    && forall i :: 0 < i < |logs| ==> |logs[i]| <= |logs[i-1]| + MAX_PROGRESS_EVENTS
  }

  predicate Grows(logs: seq<seq<ProgressEvent>>, progressId: Key) {
    && (forall i :: 0 <= i < |logs| ==> Numbered(logs[i], progressId))
    && (forall i :: 0 < i < |logs| ==> logs[i-1] <= logs[i])
  }

  /** Over any number of reads of one growing channel, a reader that never lags by more than the
      capacity is given every event past its cursor once, in order and without a gap. */
  lemma {:induction false} ReaderGetsEveryEventOnce(logs: seq<seq<ProgressEvent>>, progressId: Key, cursor: nat)
    requires logs != [] && Grows(logs, progressId) && NeverLagsTooFar(logs, cursor)
    ensures cursor <= |logs[|logs|-1]| && ReadAll(logs, cursor) == logs[|logs|-1][cursor..]
  {
    hide Rest, Numbered;
    NothingIsMissed(logs[0], progressId, cursor);
    if |logs| == 1 {
      assert ReadAll(logs[1..], CursorAfter(logs[0], cursor)) == [];
    } else {
      var later, last := logs[1..], logs[|logs|-1];
      assert logs[0] <= logs[1];
      assert later[|later|-1] == last;
      ReaderGetsEveryEventOnce(later, progressId, |logs[0]|);
      FirstIsPrefixOfLast(logs, progressId);
      assert logs[0][cursor..] + last[|logs[0]|..] == last[cursor..];
    }
  }

  lemma {:induction false} FirstIsPrefixOfLast(logs: seq<seq<ProgressEvent>>, progressId: Key)
    requires logs != [] && Grows(logs, progressId)
    ensures logs[0] <= logs[|logs|-1]
  {
    hide Numbered;
    if |logs| > 1 {
      FirstIsPrefixOfLast(logs[..|logs|-1], progressId);
      assert logs[|logs|-2] <= logs[|logs|-1];
    }
  }
}
