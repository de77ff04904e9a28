/**
 * The call lifecycle as the route handlers drive it. Each AI stage (transcription,
 * analysis, coaching) is a synchronous `Start` that checks its preconditions, sets the
 * entry status and announces the start, and a `Finish` that records the outcome the
 * background work produced. The collections are maps: calls by id, analyses by call id
 * (a call has at most one) and coaching plans by analysis id (an analysis has at most
 * one). Socket notifications are appended to an event log.
 */
module Pipeline {
  import opened Wrappers
  import opened CallModel
  import A = AnalysisModel
  import C = CoachingModel
  import Interpreter
  import Gateway
  import Uploads
  import Pagination
  import P = CoachingProgress

  /** A socket room: one user's, or one call's. */
  datatype Room = UserRoom(user: Id) | CallRoom(call: Id)

  datatype Event = Event(room: Room, name: string, callId: Id)

  /** An HTTP answer: status and message. */
  datatype Reply = Reply(status: int, message: string)

  const CallNotFound := Reply(404, "Call not found")
  const CoachingNotFound := Reply(404, "Coaching plan not found")
  const TranscriptionInProgress := Reply(400, "Transcription already in progress")
  const AlreadyTranscribed := Reply(200, "Call already transcribed")
  const TranscriptionStarted := Reply(200, "Transcription started")
  const NotTranscribed := Reply(400, "Call must be transcribed before analysis")
  const AlreadyAnalyzed := Reply(200, "Analysis already completed")
  const AnalysisStarted := Reply(200, "Analysis started")
  const NotAnalyzed := Reply(400, "Call analysis not found. Please analyze the call first.")
  const PlanExists := Reply(200, "Coaching plan already exists")
  const CoachingStarted := Reply(200, "Coaching plan generation started")
  const Uploaded201 := Reply(201, "File uploaded successfully")
  const CallDeleted := Reply(200, "Call deleted successfully")
  const ProgressUpdated := Reply(200, "Progress updated successfully")
  const ProgressFailed := Reply(500, "Server error updating progress")
  const QuizSubmitted := Reply(200, "Quiz submitted successfully")
  const QuizFailed := Reply(500, "Server error submitting quiz")

  /** The error messages of a save the database refuses. */
  const AnalysisValidationMessage := "Analysis validation failed"
  const CoachingValidationMessage := "Coaching validation failed"
  const DuplicateKeyMessage := "E11000 duplicate key error"

  /** A call that was marked failed says why. */
  predicate Consistent(c: Call) {
    c.status == Failed ==> c.error.Some?
  }

  /** The user's calls among `ids`, walked from the last uploaded, optionally filtered by status name. */
  function Listed(calls: map<Id, Call>, ids: seq<Id>, userId: Id, status: string): (r: seq<Call>)
    ensures forall c :: c in r ==> c.userId == userId && (status == "" || StatusName(c.status) == status)
    ensures forall i :: (0 <= i < |ids| && ids[i] in calls && calls[ids[i]].userId == userId
                         && (status == "" || StatusName(calls[ids[i]].status) == status)) ==> calls[ids[i]] in r
    decreases |ids|
  {
    if ids == [] then []
    else
      var id := ids[|ids| - 1];
      var init := ids[..|ids| - 1];
      assert forall i :: 0 <= i < |init| ==> init[i] == ids[i];
      var head := if id in calls && calls[id].userId == userId && (status == "" || StatusName(calls[id].status) == status)
                  then [calls[id]] else [];
      head + Listed(calls, init, userId, status)
  }

  /** Every stored call passed its schema, has an issued id and was listed in upload order. */
  ghost predicate CallsStored(calls: map<Id, Call>, order: seq<Id>, nextId: nat) {
    forall id {:trigger calls[id]} :: id in calls ==> id < nextId && id in order && CallModel.Valid(calls[id]) && Consistent(calls[id])
  }

  /** Each analysis passed its schema and sits under its call's id; analysis ids are issued and distinct. */
  ghost predicate AnalysesStored(analyses: map<Id, A.Analysis>, nextId: nat) {
    && (forall cid {:trigger analyses[cid]} :: cid in analyses ==> analyses[cid].callId == cid && analyses[cid].id < nextId && A.Valid(analyses[cid]))
    && (forall c1, c2 :: c1 in analyses && c2 in analyses && analyses[c1].id == analyses[c2].id ==> c1 == c2)
  }

  /** Each plan passed its schema and sits under the id of the analysis stored for its call. */
  ghost predicate PlansStored(coachings: map<Id, C.Coaching>, analyses: map<Id, A.Analysis>) {
    forall aid {:trigger coachings[aid]} :: aid in coachings ==>
      && coachings[aid].analysisId == aid && C.Valid(coachings[aid])
      && coachings[aid].callId in analyses && analyses[coachings[aid].callId].id == aid
  }

  /** Upload order lists issued ids, each once. */
  ghost predicate OrderFresh(order: seq<Id>, nextId: nat) {
    (forall i :: 0 <= i < |order| ==> order[i] < nextId) && P.NoDup(order)
  }

  /** The invariant of the stored collections, on their values. */
  ghost predicate Stored(calls: map<Id, Call>, order: seq<Id>, analyses: map<Id, A.Analysis>,
                         coachings: map<Id, C.Coaching>, nextId: nat) {
    CallsStored(calls, order, nextId) && AnalysesStored(analyses, nextId)
    && PlansStored(coachings, analyses) && OrderFresh(order, nextId)
  }

  lemma CallReplaced(calls: map<Id, Call>, order: seq<Id>, nextId: nat, id: Id, c: Call)
    requires CallsStored(calls, order, nextId) && id in calls && CallModel.Valid(c) && Consistent(c)
    ensures CallsStored(calls[id := c], order, nextId)
  {
  }

  lemma CallAdded(calls: map<Id, Call>, order: seq<Id>, nextId: nat, c: Call)
    requires CallsStored(calls, order, nextId) && OrderFresh(order, nextId) && CallModel.Valid(c) && Consistent(c)
    ensures CallsStored(calls[nextId := c], order + [nextId], nextId + 1)
    ensures OrderFresh(order + [nextId], nextId + 1)
  {
    assert nextId !in order;
  }

  lemma AnalysisAdded(analyses: map<Id, A.Analysis>, coachings: map<Id, C.Coaching>, nextId: nat, a: A.Analysis)
    requires AnalysesStored(analyses, nextId) && PlansStored(coachings, analyses)
    requires a.callId !in analyses && a.id == nextId && A.Valid(a)
    ensures AnalysesStored(analyses[a.callId := a], nextId + 1)
    ensures PlansStored(coachings, analyses[a.callId := a])
  {
  }

  /** Storing a call's first analysis under a fresh id, and marking the call `analyzed`, keeps the invariant. */
  lemma AnalysisStoredStep(calls: map<Id, Call>, order: seq<Id>, analyses: map<Id, A.Analysis>,
                           coachings: map<Id, C.Coaching>, nextId: nat, a: A.Analysis)
    requires Stored(calls, order, analyses, coachings, nextId)
    requires a.callId in calls && a.callId !in analyses && a.id == nextId && A.Valid(a)
    ensures Stored(calls[a.callId := calls[a.callId].(status := Analyzed)], order, analyses[a.callId := a], coachings, nextId + 1)
  {
    AnalysisAdded(analyses, coachings, nextId, a);
    IdIssued(calls, order, nextId);
    CallReplaced(calls, order, nextId + 1, a.callId, calls[a.callId].(status := Analyzed));
  }

  /** Saving a valid plan over a stored one, with the same analysis and call, keeps the invariant. */
  lemma PlanSavedStep(calls: map<Id, Call>, order: seq<Id>, analyses: map<Id, A.Analysis>,
                      coachings: map<Id, C.Coaching>, nextId: nat, aid: Id, c: C.Coaching)
    requires Stored(calls, order, analyses, coachings, nextId) && aid in coachings && C.Valid(c)
    requires c.analysisId == coachings[aid].analysisId && c.callId == coachings[aid].callId
    ensures Stored(calls, order, analyses, coachings[aid := c], nextId)
  {
    PlanStored(coachings, analyses, c);
  }

  lemma IdIssued(calls: map<Id, Call>, order: seq<Id>, nextId: nat)
    requires CallsStored(calls, order, nextId) && OrderFresh(order, nextId)
    ensures CallsStored(calls, order, nextId + 1) && OrderFresh(order, nextId + 1)
  {
  }

  lemma CallRemoved(calls: map<Id, Call>, order: seq<Id>, nextId: nat, id: Id)
    requires CallsStored(calls, order, nextId)
    ensures CallsStored(calls - {id}, order, nextId)
  {
  }

  lemma PlanRemoved(coachings: map<Id, C.Coaching>, analyses: map<Id, A.Analysis>, aid: Id)
    requires PlansStored(coachings, analyses)
    ensures PlansStored(coachings - {aid}, analyses)
  {
  }

  lemma PlanStored(coachings: map<Id, C.Coaching>, analyses: map<Id, A.Analysis>, plan: C.Coaching)
    requires PlansStored(coachings, analyses) && C.Valid(plan)
    requires plan.callId in analyses && analyses[plan.callId].id == plan.analysisId
    ensures PlansStored(coachings[plan.analysisId := plan], analyses)
  {
  }

  class Backend {
    var calls: map<Id, Call>
    /** Call ids in upload order. */
    var order: seq<Id>
    /** Analyses by the id of their call. */
    var analyses: map<Id, A.Analysis>
    /** Coaching plans by the id of their analysis. */
    var coachings: map<Id, C.Coaching>
    var events: seq<Event>
    /** The next fresh document id. */
    var nextId: nat

    /**
     * Every stored document passed its schema, ids are fresh, each analysis sits under its
     * call's id, and each plan sits under its analysis's id, whose analysis is the one
     * stored for the plan's call.
     */
    ghost predicate Valid()
      reads this
    {
      Stored(calls, order, analyses, coachings, nextId)
    }

    constructor ()
      ensures Valid()
      ensures calls == map[] && analyses == map[] && coachings == map[] && events == [] && order == []
    {
      calls := map[];
      order := [];
      analyses := map[];
      coachings := map[];
      events := [];
      nextId := 0;
    }

    /** `Call.findOne({_id: callId, userId})` finds the call. */
    predicate Owns(userId: Id, callId: Id)
      reads this
    {
      callId in calls && calls[callId].userId == userId
    }

    // ------------------------------------------------------------ calls

    /** The upload handler after the file was received: a created call is stored and announced to its user. */
    method Upload(file: Option<Uploads.StoredFile>, metadataField: string,
                  json: Interpreter.JsonText<Uploads.ClientMetadata>, userId: Id, userName: string, now: int)
      returns (reply: Reply, id: Option<Id>)
      requires Valid()
      modifies this`calls, this`order, this`events, this`nextId
      ensures Valid()
      ensures Uploads.UploadCall(file, metadataField, json, userId, userName, now).Created? ==>
                var c := Uploads.UploadCall(file, metadataField, json, userId, userName, now).call;
                && reply == Uploaded201 && id == Some(old(nextId))
                && calls == old(calls)[old(nextId) := c] && order == old(order) + [old(nextId)]
                && events == old(events) + [Event(UserRoom(userId), "call-uploaded", old(nextId))]
      ensures Uploads.UploadCall(file, metadataField, json, userId, userName, now).Rejected? ==>
                var r := Uploads.UploadCall(file, metadataField, json, userId, userName, now);
                reply == Reply(r.status, r.message) && id.None? && unchanged(this)
    {
      var outcome := Uploads.UploadCall(file, metadataField, json, userId, userName, now);
      match outcome {
        case Rejected(status, message) =>
          reply := Reply(status, message);
          id := None;
        case Created(c) =>
          CallAdded(calls, order, nextId, c);
          calls := calls[nextId := c];
          order := order + [nextId];
          events := events + [Event(UserRoom(userId), "call-uploaded", nextId)];
          id := Some(nextId);
          nextId := nextId + 1;
          reply := Uploaded201;
      }
    }

    /** The call as the owner may read it, or 404. */
    function GetCall(userId: Id, callId: Id): (r: Result<Call>)
      reads this
      ensures r.Ok? <==> Owns(userId, callId)
      ensures r.Ok? ==> r.value == calls[callId]
      ensures r.Err? ==> r.message == CallNotFound.message
    {
      if Owns(userId, callId) then Ok(calls[callId]) else Err(CallNotFound.message)
    }

    /** The listing: the user's calls, newest first, filtered by status when one is given, one page of them. */
    function ListCalls(userId: Id, pageParam: Option<int>, limitParam: Option<int>, status: string): (r: Option<Pagination.Page<Call>>)
      reads this
      ensures r.Some? ==> forall k :: 0 <= k < |r.value.items| ==>
                            r.value.items[k].userId == userId && (status == "" || StatusName(r.value.items[k].status) == status)
      ensures r.Some? ==> r.value.total == |Listed(calls, order, userId, status)|
      ensures r == Pagination.Paginate(Listed(calls, order, userId, status), pageParam, limitParam)
    {
      var all := Listed(calls, order, userId, status);
      var r := Pagination.Paginate(all, pageParam, limitParam);
      assert r.Some? ==> forall k :: 0 <= k < |r.value.items| ==> r.value.items[k] in all;
      r
    }

    /** Deleting a call removes only the call: its analysis and coaching plan stay stored. */
    method DeleteCall(userId: Id, callId: Id) returns (reply: Reply)
      requires Valid()
      modifies this`calls
      ensures Valid()
      ensures !old(Owns(userId, callId)) ==> reply == CallNotFound && unchanged(this)
      ensures old(Owns(userId, callId)) ==> reply == CallDeleted && calls == old(calls) - {callId}
    {
      if !Owns(userId, callId) {
        return CallNotFound;
      }
      CallRemoved(calls, order, nextId, callId);
      calls := calls - {callId};
      reply := CallDeleted;
    }

    // ------------------------------------------------------------ transcription

    /**
     * Starting a transcription: 404 for a call the user does not own, 400 while one is
     * running, 200 with the stored transcript when there is one; none of these changes
     * anything. Otherwise the call becomes `transcribing`, whatever its status was.
     */
    method StartTranscription(userId: Id, callId: Id) returns (reply: Reply)
      requires Valid()
      modifies this`calls, this`events
      ensures Valid()
      ensures !old(Owns(userId, callId)) ==> reply == CallNotFound && unchanged(this)
      ensures old(Owns(userId, callId)) && old(calls[callId].status) == Transcribing ==>
                reply == TranscriptionInProgress && unchanged(this)
      ensures old(Owns(userId, callId)) && old(calls[callId].status) != Transcribing && old(HasTranscript(calls[callId])) ==>
                reply == AlreadyTranscribed && unchanged(this)
      ensures old(Owns(userId, callId)) && old(calls[callId].status) != Transcribing && !old(HasTranscript(calls[callId])) ==>
                && reply == TranscriptionStarted
                && calls == old(calls)[callId := old(calls[callId]).(status := Transcribing)]
                && events == old(events) + [Event(CallRoom(callId), "transcription-started", callId)]
    {
      if !Owns(userId, callId) {
        return CallNotFound;
      }
      var call := calls[callId];
      if call.status == Transcribing {
        return TranscriptionInProgress;
      }
      if HasTranscript(call) {
        return AlreadyTranscribed;
      }
      CallReplaced(calls, order, nextId, callId, call.(status := Transcribing));
      calls := calls[callId := call.(status := Transcribing)];
      events := events + [Event(CallRoom(callId), "transcription-started", callId)];
      reply := TranscriptionStarted;
    }

    /** Marks a stage as failed with the error's message, time and step. */
    method Fail(callId: Id, message: string, now: int, step: Step, eventName: string)
      requires Valid() && callId in calls
      modifies this`calls, this`events
      ensures Valid()
      ensures calls == old(calls)[callId := old(calls[callId]).(status := Failed, error := Some(CallError(message, now, step)))]
      ensures events == old(events) + [Event(CallRoom(callId), eventName, callId)]
    {
      CallReplaced(calls, order, nextId, callId, calls[callId].(status := Failed, error := Some(CallError(message, now, step))));
      calls := calls[callId := calls[callId].(status := Failed, error := Some(CallError(message, now, step)))];
      events := events + [Event(CallRoom(callId), eventName, callId)];
    }

    /**
     * The end of a transcription: the text becomes the transcript, the duration stays
     * unknown, the call is `transcribed` and stamped; an error marks it failed at step
     * `transcription`.
     */
    method FinishTranscription(callId: Id, outcome: Result<Gateway.Transcription>, now: int)
      requires Valid() && callId in calls
      modifies this`calls, this`events
      ensures Valid()
      ensures outcome.Ok? ==>
                && calls == old(calls)[callId := old(calls[callId]).(transcript := Some(outcome.value.text), duration := None,
                                                                  status := Transcribed, transcriptionTime := Some(now))]
                && events == old(events) + [Event(CallRoom(callId), "transcription-completed", callId)]
      ensures outcome.Err? ==>
                && calls == old(calls)[callId := old(calls[callId]).(status := Failed,
                                                                  error := Some(CallError(outcome.message, now, TranscriptionStep)))]
                && events == old(events) + [Event(CallRoom(callId), "transcription-failed", callId)]
    {
      match outcome {
        case Ok(t) =>
          var call := calls[callId];
          CallReplaced(calls, order, nextId, callId, call.(transcript := Some(t.text), duration := None,
                                                           status := Transcribed, transcriptionTime := Some(now)));
          calls := calls[callId := call.(transcript := Some(t.text), duration := None,
                                         status := Transcribed, transcriptionTime := Some(now))];
          events := events + [Event(CallRoom(callId), "transcription-completed", callId)];
        case Err(message) =>
          Fail(callId, message, now, TranscriptionStep, "transcription-failed");
      }
    }

    // ------------------------------------------------------------ analysis

    /**
     * Starting an analysis: 404 for a call the user does not own, 400 without a
     * transcript, 200 when an analysis is stored; otherwise the call becomes `analyzing`.
     * The status is never consulted, so a call already `analyzing` starts again.
     */
    method StartAnalysis(userId: Id, callId: Id) returns (reply: Reply)
      requires Valid()
      modifies this`calls, this`events
      ensures Valid()
      ensures !old(Owns(userId, callId)) ==> reply == CallNotFound && unchanged(this)
      ensures old(Owns(userId, callId)) && !old(HasTranscript(calls[callId])) ==> reply == NotTranscribed && unchanged(this)
      ensures old(Owns(userId, callId)) && old(HasTranscript(calls[callId])) && callId in old(analyses) ==>
                reply == AlreadyAnalyzed && unchanged(this)
      ensures old(Owns(userId, callId)) && old(HasTranscript(calls[callId])) && callId !in old(analyses) ==>
                && reply == AnalysisStarted
                && calls == old(calls)[callId := old(calls[callId]).(status := Analyzing)]
                && events == old(events) + [Event(CallRoom(callId), "analysis-started", callId)]
    {
      if !Owns(userId, callId) {
        return CallNotFound;
      }
      var call := calls[callId];
      if !HasTranscript(call) {
        return NotTranscribed;
      }
      if callId in analyses {
        return AlreadyAnalyzed;
      }
      CallReplaced(calls, order, nextId, callId, call.(status := Analyzing));
      calls := calls[callId := call.(status := Analyzing)];
      events := events + [Event(CallRoom(callId), "analysis-started", callId)];
      reply := AnalysisStarted;
    }

    /**
     * The end of an analysis: a reply the schema accepts is stored as the call's one
     * Analysis and the call becomes `analyzed`. A provider error, a reply the schema
     * refuses, or an analysis stored meanwhile (unique call id) marks the call failed at
     * step `analysis`; the transcript is kept either way.
     */
    method FinishAnalysis(callId: Id, outcome: Result<Interpreter.AnalysisReply>, now: int, processingTime: int)
      requires Valid() && callId in calls
      modifies this`analyses, this`nextId, this`calls, this`events
      ensures Valid() && callId in calls
      ensures calls[callId].transcript == old(calls[callId].transcript)
      ensures outcome.Ok? && Interpreter.Storable(outcome.value) && callId !in old(analyses) ==>
                && analyses == old(analyses)[callId := A.NewAnalysis(old(nextId), callId, old(calls[callId].userId),
                                                                     outcome.value.result, now, processingTime)]
                && calls == old(calls)[callId := old(calls[callId]).(status := Analyzed)]
                && events == old(events) + [Event(CallRoom(callId), "analysis-completed", callId)]
                && nextId == old(nextId) + 1
      ensures !(outcome.Ok? && Interpreter.Storable(outcome.value) && callId !in old(analyses)) ==>
                && analyses == old(analyses) && nextId == old(nextId)
                && calls[callId].status == Failed && calls[callId].error.Some?
                && calls[callId].error.value.step == AnalysisStep
                && events == old(events) + [Event(CallRoom(callId), "analysis-failed", callId)]
      ensures outcome.Err? ==> calls[callId].error == Some(CallError(outcome.message, now, AnalysisStep))
    {
      if outcome.Err? {
        Fail(callId, outcome.message, now, AnalysisStep, "analysis-failed");
        return;
      }
      if !Interpreter.Storable(outcome.value) {
        Fail(callId, AnalysisValidationMessage, now, AnalysisStep, "analysis-failed");
        return;
      }
      if callId in analyses {
        Fail(callId, DuplicateKeyMessage, now, AnalysisStep, "analysis-failed");
        return;
      }
      StoreAnalysis(A.NewAnalysis(nextId, callId, calls[callId].userId, outcome.value.result, now, processingTime));
    }

    /** `Analysis.create` succeeded: the analysis is stored under its call, which becomes `analyzed`. */
    method StoreAnalysis(analysis: A.Analysis)
      requires Valid() && analysis.callId in calls && analysis.callId !in analyses
      requires analysis.id == nextId && A.Valid(analysis)
      modifies this`analyses, this`nextId, this`calls, this`events
      ensures Valid()
      ensures analyses == old(analyses)[analysis.callId := analysis] && nextId == old(nextId) + 1
      ensures calls == old(calls)[analysis.callId := old(calls[analysis.callId]).(status := Analyzed)]
      ensures events == old(events) + [Event(CallRoom(analysis.callId), "analysis-completed", analysis.callId)]
    {
      var callId := analysis.callId;
      AnalysisStoredStep(calls, order, analyses, coachings, nextId, analysis);
      analyses := analyses[callId := analysis];
      nextId := nextId + 1;
      calls := calls[callId := calls[callId].(status := Analyzed)];
      events := events + [Event(CallRoom(callId), "analysis-completed", callId)];
    }

    // ------------------------------------------------------------ coaching

    /**
     * Starting a coaching plan: 404 for a call the user does not own, 400 without an
     * analysis, 200 with the stored plan unless `force` is exactly "true"; with force the
     * old plan is deleted first. The call is marked `coaching-generated` before the plan
     * is built.
     */
    method StartCoaching(userId: Id, callId: Id, force: string) returns (reply: Reply)
      requires Valid()
      modifies this`coachings, this`calls, this`events
      ensures Valid()
      ensures !old(Owns(userId, callId)) ==> reply == CallNotFound && unchanged(this)
      ensures old(Owns(userId, callId)) && callId !in analyses ==> reply == NotAnalyzed && unchanged(this)
      ensures old(Owns(userId, callId)) && callId in analyses && analyses[callId].id in old(coachings) && force != "true" ==>
                reply == PlanExists && unchanged(this)
      ensures old(Owns(userId, callId)) && callId in analyses && (analyses[callId].id !in old(coachings) || force == "true") ==>
                && reply == CoachingStarted
                && coachings == old(coachings) - {analyses[callId].id}
                && calls == old(calls)[callId := old(calls[callId]).(status := CoachingGenerated)]
                && events == old(events) + [Event(CallRoom(callId), "coaching-generation-started", callId)]
    {
      if !Owns(userId, callId) {
        return CallNotFound;
      }
      if callId !in analyses {
        return NotAnalyzed;
      }
      var analysisId := analyses[callId].id;
      var forceRegenerate := force == "true";
      if analysisId in coachings && !forceRegenerate {
        return PlanExists;
      }
      if analysisId in coachings && forceRegenerate {
        PlanRemoved(coachings, analyses, analysisId);
        coachings := coachings - {analysisId};
      } else {
        assert coachings - {analysisId} == coachings;
      }
      CallReplaced(calls, order, nextId, callId, calls[callId].(status := CoachingGenerated));
      calls := calls[callId := calls[callId].(status := CoachingGenerated)];
      events := events + [Event(CallRoom(callId), "coaching-generation-started", callId)];
      reply := CoachingStarted;
    }

    /**
     * The end of a coaching generation: a result the schema accepts becomes the plan of
     * the call's analysis, with every criterion and progress value at its start, and the
     * call stays `coaching-generated`. A provider error, a result the schema refuses, or
     * a plan stored meanwhile (unique analysis id) marks the call failed at step `coaching`.
     */
    method FinishCoaching(callId: Id, outcome: Result<C.CoachingResult>, now: int)
      requires Valid() && callId in calls && callId in analyses
      modifies this`coachings, this`calls, this`events
      ensures Valid() && callId in calls && callId in analyses
      ensures var aid := analyses[callId].id;
              outcome.Ok? && C.ResultValid(outcome.value) && aid !in old(coachings) ==>
                && coachings == old(coachings)[aid := C.NewCoaching(aid, callId, old(calls[callId].userId), outcome.value, now)]
                && calls == old(calls)[callId := old(calls[callId]).(status := CoachingGenerated)]
                && events == old(events) + [Event(CallRoom(callId), "coaching-generated", callId)]
      ensures var aid := analyses[callId].id;
              !(outcome.Ok? && C.ResultValid(outcome.value) && aid !in old(coachings)) ==>
                && coachings == old(coachings)
                && calls[callId].status == Failed && calls[callId].error.Some?
                && calls[callId].error.value.step == CoachingStep
                && events == old(events) + [Event(CallRoom(callId), "coaching-generation-failed", callId)]
    {
      var analysis := analyses[callId];
      if outcome.Err? {
        Fail(callId, outcome.message, now, CoachingStep, "coaching-generation-failed");
        return;
      }
      var plan := C.NewCoaching(analysis.id, callId, calls[callId].userId, outcome.value, now);
      if !C.Valid(plan) {
        Fail(callId, CoachingValidationMessage, now, CoachingStep, "coaching-generation-failed");
        return;
      }
      if analysis.id in coachings {
        Fail(callId, DuplicateKeyMessage, now, CoachingStep, "coaching-generation-failed");
        return;
      }
      PlanStored(coachings, analyses, plan);
      coachings := coachings[analysis.id := plan];
      CallReplaced(calls, order, nextId, callId, calls[callId].(status := CoachingGenerated));
      calls := calls[callId := calls[callId].(status := CoachingGenerated)];
      events := events + [Event(CallRoom(callId), "coaching-generated", callId)];
    }

    // ------------------------------------------------------------ progress

    /** `Coaching.findOne({callId, userId})`: the plan of the call's analysis, when it belongs to the user. */
    function PlanOf(userId: Id, callId: Id): (r: Option<Id>)
      reads this
      ensures r.Some? ==> r.value in coachings && coachings[r.value].userId == userId
    {
      if callId in analyses && analyses[callId].id in coachings && coachings[analyses[callId].id].userId == userId
      then Some(analyses[callId].id) else None
    }

    /** The lookup by call finds every plan of that call and user, and only those. */
    lemma PlanLookupIsExact(userId: Id, callId: Id, aid: Id)
      requires Valid()
      ensures (aid in coachings && coachings[aid].callId == callId && coachings[aid].userId == userId) ==>
              PlanOf(userId, callId) == Some(aid)
      ensures PlanOf(userId, callId) == Some(aid) ==> coachings[aid].callId == callId
    {
    }

    /**
     * Marking a resource done on the user's plan for a call: 404 without a plan; otherwise
     * the updated plan is saved, stamped, unless the schema refuses its progress (above
     * 100), which is a 500 and keeps the stored plan.
     */
    method UpdateProgress(userId: Id, callId: Id, kind: P.ResourceKind, resourceId: string, now: int) returns (reply: Reply)
      requires Valid()
      modifies this`coachings
      ensures Valid()
      ensures old(PlanOf(userId, callId)).None? ==> reply == CoachingNotFound && unchanged(this)
      ensures old(PlanOf(userId, callId)).Some? ==>
                var aid := old(PlanOf(userId, callId)).value;
                var updated := C.Stamped(P.Updated(old(coachings[aid]), kind, resourceId), now);
                && (C.Valid(updated) ==> reply == ProgressUpdated && coachings == old(coachings)[aid := updated])
                && (!C.Valid(updated) ==> reply == ProgressFailed && coachings == old(coachings))
    {
      var aid := PlanOf(userId, callId);
      if aid.None? {
        return CoachingNotFound;
      }
      var doc := new P.CoachingDocument.Load(coachings[aid.value]);
      doc.UpdateProgress(kind, resourceId);
      var saved := C.Stamped(doc.Document(), now);
      if C.Valid(saved) {
        PlanSavedStep(calls, order, analyses, coachings, nextId, aid.value, saved);
        coachings := coachings[aid.value := saved];
        reply := ProgressUpdated;
      } else {
        reply := ProgressFailed;
      }
    }

    /**
     * Submitting quiz answers on the user's plan for a call: 404 without a plan; a quiz
     * without questions cannot be saved (500); otherwise the scored submission is saved.
     */
    method SubmitQuiz(userId: Id, callId: Id, answers: seq<P.Answer>, now: int) returns (reply: Reply, score: Option<nat>)
      requires Valid()
      modifies this`coachings
      ensures Valid()
      ensures old(PlanOf(userId, callId)).None? ==> reply == CoachingNotFound && score.None? && unchanged(this)
      ensures old(PlanOf(userId, callId)).Some? ==>
                var aid := old(PlanOf(userId, callId)).value;
                var plan := old(coachings[aid]);
                && score == P.SubmissionScore(plan, answers)
                && (score.None? ==> reply == QuizFailed && coachings == old(coachings))
                && (score.Some? ==> reply == QuizSubmitted
                                    && coachings == old(coachings)[aid := C.Stamped(P.Submitted(plan, answers, now), now)])
    {
      var aid := PlanOf(userId, callId);
      if aid.None? {
        return CoachingNotFound, None;
      }
      var doc := new P.CoachingDocument.Load(coachings[aid.value]);
      score := doc.SubmitQuiz(answers, now);
      if score.None? {
        return QuizFailed, None;
      }
      var saved := C.Stamped(doc.Document(), now);
      SubmittedPlanIsValid(coachings[aid.value], answers, now);
      PlanSavedStep(calls, order, analyses, coachings, nextId, aid.value, saved);
      coachings := coachings[aid.value := saved];
      reply := QuizSubmitted;
    }
  }

  /** A submission keeps a stored plan valid: it only sets the progress to 100 or leaves it. */
  lemma SubmittedPlanIsValid(c: C.Coaching, answers: seq<P.Answer>, now: int)
    requires C.Valid(c) && |c.quiz.questions| > 0
    ensures C.Valid(C.Stamped(P.Submitted(c, answers, now), now))
  {
  }

  /**
   * With the Ollama provider a transcription always fails with "Unsupported provider:
   * ollama", so the call ends `failed` at step `transcription`.
   */
  method TranscribeWithOllama(b: Backend, userId: Id, callId: Id, now: int) returns (reply: Reply)
    requires b.Valid() && b.Owns(userId, callId)
    requires b.calls[callId].status != Transcribing && !HasTranscript(b.calls[callId])
    modifies b
    ensures b.Valid() && reply == TranscriptionStarted && callId in b.calls
    ensures b.calls[callId].status == Failed
    ensures b.calls[callId].error == Some(CallError("Unsupported provider: ollama", now, TranscriptionStep))
  {
    reply := b.StartTranscription(userId, callId);
    var outcome := Gateway.Transcribe(Gateway.Ollama, false, Gateway.NoClient, _ => Gateway.HttpFailure(None, ""), "");
    b.FinishTranscription(callId, outcome, now);
  }

  /**
   * An analysis produced through Ollama is never stored: the call ends `failed` at step
   * `analysis`, and keeps its transcript, although the status is no longer one that
   * follows a transcription.
   */
  method AnalyzeWithOllama(b: Backend, userId: Id, callId: Id, ollama: Result<string>, now: int) returns (reply: Reply)
    requires b.Valid() && b.Owns(userId, callId) && HasTranscript(b.calls[callId]) && callId !in b.analyses
    modifies b
    ensures b.Valid() && reply == AnalysisStarted && callId in b.calls
    ensures callId !in b.analyses
    ensures b.calls[callId].status == Failed && HasTranscript(b.calls[callId])
    ensures b.calls[callId].error.Some? && b.calls[callId].error.value.step == AnalysisStep
  {
    reply := b.StartAnalysis(userId, callId);
    var outcome := Gateway.Analyze(Gateway.Ollama, _ => Gateway.ModelTrial(Gateway.NoClient, _ => Gateway.HttpFailure(None, "")),
                                   _ => Interpreter.NotJson, ollama);
    b.FinishAnalysis(callId, outcome, now, 0);
  }
}
