/**
 * The transcript list and the live previews a session page shows
 * (src/lib/hooks/useTranscripts.ts).
 *
 * The hook keeps the final transcripts in arrival order and, per speaking
 * participant, the last streaming preview received over the realtime channel.
 * Each handler the hook registers is one method call here; the fetch, the
 * database subscription and the channel itself are outside the model, which
 * keeps only whether a channel is attached and what would be sent on it.
 */
module Transcripts {
  import opened Common
  import opened Types
  import opened Transcribe

  /** A preview as broadcast by a speaking participant. */
  type StreamingTranscript = Broadcast

  /** The hook's state: the final transcripts, and the previews keyed by
      participant id. */
  datatype StoreState = StoreState(transcripts: seq<Transcript>, previews: map<string, StreamingTranscript>)

  const EmptyStore := StoreState([], map[])

  // ---------------------------------------------------------------------
  // The handlers as functions
  // ---------------------------------------------------------------------

  /** Drop the preview of a participant, when the row names one (a missing or
      empty id is falsy and leaves the map alone). */
  function ClearPreview(previews: map<string, StreamingTranscript>, participant: Option<string>): map<string, StreamingTranscript> {
    if Truthy(participant) then previews - {participant.value} else previews
  }

  /** `addTranscript`: append the row and clear its participant's preview. */
  function AddStep(st: StoreState, t: Transcript): StoreState {
    StoreState(st.transcripts + [t], ClearPreview(st.previews, t.participant_id))
  }

  /** The INSERT handler: only final rows are taken. */
  function InsertStep(st: StoreState, t: Transcript): StoreState {
    if t.is_final then AddStep(st, t) else st
  }

  /** The streaming broadcast handler: store the payload under its sender. */
  function StreamStep(st: StoreState, d: StreamingTranscript): StoreState {
    StoreState(st.transcripts, st.previews[d.participantId := d])
  }

  /** What the hook can receive. */
  datatype Event =
    | Added(row: Transcript)
    | Inserted(row: Transcript)
    | Streamed(preview: StreamingTranscript)

  function Apply(st: StoreState, e: Event): StoreState {
    match e
    case Added(t) => AddStep(st, t)
    case Inserted(t) => InsertStep(st, t)
    case Streamed(d) => StreamStep(st, d)
  }

  /** The state after a sequence of events, in order. */
  function Run(st: StoreState, events: seq<Event>): StoreState
    decreases |events|
  {
    if events == [] then st else Run(Apply(st, events[0]), events[1..])
  }

  // ---------------------------------------------------------------------
  // Properties of the handlers
  // ---------------------------------------------------------------------

  /** Adding a row appends exactly that row; the preview of its participant
      is gone when the row names one, and every other preview is kept. */
  lemma {:induction false} AddStepSpec(st: StoreState, t: Transcript)
    ensures var st' := AddStep(st, t);
      && st'.transcripts == st.transcripts + [t]
      && (Truthy(t.participant_id) ==> t.participant_id.value !in st'.previews)
      && (forall k :: Truthy(t.participant_id) && k != t.participant_id.value ==>
            (k in st'.previews <==> k in st.previews) && (k in st.previews ==> st'.previews[k] == st.previews[k]))
      && (!Truthy(t.participant_id) ==> st'.previews == st.previews)
  {
  }

  /** A final insert behaves as `addTranscript`; any other insert changes nothing. */
  lemma {:induction false} InsertStepSpec(st: StoreState, t: Transcript)
    ensures t.is_final ==> InsertStep(st, t) == AddStep(st, t)
    ensures !t.is_final ==> InsertStep(st, t) == st
  {
  }

  /** A broadcast replaces its sender's preview, whoever the sender is, and
      leaves the other previews and the list alone. */
  lemma {:induction false} StreamStepSpec(st: StoreState, d: StreamingTranscript)
    ensures var st' := StreamStep(st, d);
      && st'.transcripts == st.transcripts
      && d.participantId in st'.previews && st'.previews[d.participantId] == d
      && st'.previews.Keys == st.previews.Keys + {d.participantId}
      && (forall k :: k in st.previews && k != d.participantId ==> st'.previews[k] == st.previews[k])
  {
  }

  lemma {:induction false} RunCons(st: StoreState, e: Event, rest: seq<Event>)
    ensures Run(st, [e] + rest) == Run(Apply(st, e), rest)
  {
    assert ([e] + rest)[1..] == rest;
  }

  lemma {:induction false} RunAppend(st: StoreState, a: seq<Event>, b: seq<Event>)
    ensures Run(st, a + b) == Run(Run(st, a), b)
    decreases |a|
  {
    if a == [] {
      assert a + b == b;
    } else {
      assert a + b == [a[0]] + (a[1..] + b);
      RunCons(st, a[0], a[1..] + b);
      RunAppend(Apply(st, a[0]), a[1..], b);
    }
  }

  /** Two events, one after the other. */
  lemma {:induction false} RunTwo(st: StoreState, e1: Event, e2: Event)
    ensures Run(st, [e1, e2]) == Apply(Apply(st, e1), e2)
  {
    assert [e1, e2] == [e1] + [e2];
    RunCons(st, e1, [e2]);
    assert [e2] == [e2] + [];
    RunCons(Apply(st, e1), e2, []);
  }

  /** The rows a sequence of events lists: every added row and every final
      inserted row, in order. */
  function Listed(events: seq<Event>): seq<Transcript>
    decreases |events|
  {
    if events == [] then []
    else
      var e := events[0];
      (if e.Added? || (e.Inserted? && e.row.is_final) then [e.row] else []) + Listed(events[1..])
  }

  /** The handlers only ever append to the list: whatever happens, the list
      grows by exactly the added rows and the final inserted rows, and the
      earlier rows stay where they were. */
  lemma {:induction false} ListOnlyGrows(st: StoreState, events: seq<Event>)
    ensures Run(st, events).transcripts == st.transcripts + Listed(events)
    decreases |events|
  {
    if events == [] {
      assert st.transcripts + [] == st.transcripts;
    } else {
      var mid := Apply(st, events[0]);
      ListOnlyGrows(mid, events[1..]);
      var e := events[0];
      var head := if e.Added? || (e.Inserted? && e.row.is_final) then [e.row] else [];
      assert mid.transcripts == st.transcripts + head;
      assert Listed(events) == head + Listed(events[1..]);
      assert st.transcripts + head + Listed(events[1..]) == st.transcripts + (head + Listed(events[1..]));
    }
  }

  /** Rows are not deduplicated: a final row delivered both by the local add
      and by the database insert is listed twice. */
  lemma {:induction false} DeliveredTwice(st: StoreState, t: Transcript)
    requires t.is_final
    ensures Count(Run(st, [Added(t), Inserted(t)]).transcripts, t) == Count(st.transcripts, t) + 2
  {
    var once := AddStep(st, t);
    RunTwo(st, Added(t), Inserted(t));
    CountAppend(st.transcripts, [t], t);
    CountAppend(once.transcripts, [t], t);
  }

  /** A participant's preview disappears once that participant's final row
      arrives, and comes back with the next preview. */
  lemma {:induction false} FinalRowClearsPreview(st: StoreState, d: StreamingTranscript, t: Transcript)
    requires t.is_final && t.participant_id == Some(d.participantId) && d.participantId != ""
    ensures d.participantId !in Run(st, [Streamed(d), Inserted(t)]).previews
    ensures var st' := Run(st, [Streamed(d), Inserted(t), Streamed(d)]);
      d.participantId in st'.previews && st'.previews[d.participantId] == d
  {
    RunTwo(st, Streamed(d), Inserted(t));
    assert [Streamed(d), Inserted(t), Streamed(d)] == [Streamed(d), Inserted(t)] + [Streamed(d)];
    RunAppend(st, [Streamed(d), Inserted(t)], [Streamed(d)]);
    var mid := Run(st, [Streamed(d), Inserted(t)]);
    assert [Streamed(d)] == [Streamed(d)] + [];
    RunCons(mid, Streamed(d), []);
  }

  // ---------------------------------------------------------------------
  // The hook as an object
  // ---------------------------------------------------------------------

  datatype FetchOutcome = Fetched(rows: seq<Transcript>) | FetchFailed(message: string)

  class TranscriptStore {
    var transcripts: seq<Transcript>
    var previews: map<string, StreamingTranscript>
    var isLoading: bool
    var error: Option<string>
    /** Whether `channelRef` holds a subscribed channel. */
    var channelAttached: bool

    function State(): StoreState
      reads this
    {
      StoreState(transcripts, previews)
    }

    constructor ()
      ensures State() == EmptyStore && isLoading && error.None? && !channelAttached
    {
      transcripts := [];
      previews := map[];
      isLoading := true;
      error := None;
      channelAttached := false;
    }

    /** The end of `fetchTranscripts`: the fetched list replaces the list, or
        the failure is recorded; loading is over either way (lines 32-44). */
    method OnFetched(outcome: FetchOutcome)
      modifies this
      ensures outcome.Fetched? ==> transcripts == outcome.rows && error.None?
      ensures outcome.FetchFailed? ==> transcripts == old(transcripts) && error == Some(outcome.message)
      ensures previews == old(previews) && !isLoading && channelAttached == old(channelAttached)
    {
      match outcome {
        case Fetched(rows) =>
          transcripts := rows;
          error := None;
        case FetchFailed(message) =>
          error := Some(message);
      }
      isLoading := false;
    }

    /** `broadcastStreaming`: what goes out on the channel, if one is attached. */
    method BroadcastStreaming(d: StreamingTranscript) returns (sent: Option<StreamingTranscript>)
      ensures sent.Some? <==> channelAttached
      ensures sent.Some? ==> sent.value == d
    {
      sent := None;
      if channelAttached {
        sent := Some(d);
      }
    }

    /** `addTranscript`. */
    method AddTranscript(t: Transcript)
      modifies this
      ensures State() == AddStep(old(State()), t)
      ensures isLoading == old(isLoading) && error == old(error) && channelAttached == old(channelAttached)
    {
      transcripts := transcripts + [t];
      if Truthy(t.participant_id) {
        var next := previews;
        next := next - {t.participant_id.value};
        previews := next;
      }
    }

    /** The INSERT handler. */
    method OnInsert(t: Transcript)
      modifies this
      ensures State() == InsertStep(old(State()), t)
      ensures isLoading == old(isLoading) && error == old(error) && channelAttached == old(channelAttached)
    {
      if t.is_final {
        transcripts := transcripts + [t];
        var next := previews;
        if Truthy(t.participant_id) {
          next := next - {t.participant_id.value};
        }
        previews := next;
      }
    }

    /** The streaming broadcast handler. */
    method OnBroadcast(d: StreamingTranscript)
      modifies this
      ensures State() == StreamStep(old(State()), d)
      ensures isLoading == old(isLoading) && error == old(error) && channelAttached == old(channelAttached)
    {
      var next := previews;
      next := next[d.participantId := d];
      previews := next;
    }

    /** The subscription effect for a session id: the previous channel is
        removed, and a new one attached only when the id is present. */
    method OnSessionId(sessionId: Option<string>)
      modifies this
      ensures channelAttached == Truthy(sessionId)
      ensures State() == old(State()) && isLoading == old(isLoading) && error == old(error)
    {
      channelAttached := false;
      if !Truthy(sessionId) {
        return;
      }
      channelAttached := true;
    }

    /** The subscription effect's cleanup on unmount. */
    method Unmount()
      modifies this
      ensures !channelAttached
      ensures State() == old(State()) && isLoading == old(isLoading) && error == old(error)
    {
      channelAttached := false;
    }
  }
}
