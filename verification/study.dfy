/** The subject list (src/screens/StudyScreen.tsx): loaded through the gateway
    each time the screen gains focus, with a flag that keeps two loads from
    running at once. A load is split into its start and its settlement. */
module Study {
  import opened Wrappers
  import ApiConfig
  import G = Gateway

  const Offline: string := "Nie ste pripojení k internetu. Pripojte sa a skúste to znova."
  const Rejected: string := "Nepodarilo sa načítať predmety"
  const Failed: string := "Nepodarilo sa načítať predmety. Skúste to znova."

  /** The screen's state; `inFlight` is `isLoadingRef`. */
  datatype Screen = Screen(subjects: seq<string>, loading: bool, error: Option<string>, inFlight: bool)

  const Mounted: Screen := Screen([], true, None, false)

  /** The request a load sends through the gateway. */
  function SubjectsRequest(): G.Request {
    G.Get(ApiConfig.Url(ApiConfig.TestsGetSubjects), G.NoOptions)
  }

  /** `loadSubjects()` up to its request: nothing while a load is in flight. */
  function Begin(s: Screen): (r: (Screen, Option<G.Request>))
    ensures s.inFlight ==> r == (s, None)
    ensures !s.inFlight ==> r == (s.(inFlight := true, loading := true), Some(SubjectsRequest()))
  {
    if s.inFlight then (s, None) else (s.(inFlight := true, loading := true), Some(SubjectsRequest()))
  }

  /** The focus effect: offline it shows the error and stops the spinner;
      online it starts a load unless one is in flight. */
  function Focus(s: Screen, online: bool): (r: (Screen, Option<G.Request>))
    ensures r.1.Some? <==> online && !s.inFlight
    ensures !online ==> r.0 == s.(error := Some(Offline), loading := false)
    ensures online ==> r == Begin(s)
  {
    if !online then (s.(error := Some(Offline), loading := false), None)
    else if !s.inFlight then Begin(s)
    else (s, None)
  }

  /** A row of the answer's `data`. */
  datatype Row = Row(subject: string)

  /** The answer: thrown (network, not JSON), or the body's `success` and `data`. */
  datatype Reply = Threw | Answer(success: bool, data: Option<seq<Row>>)

  /** The settlement of a load: the list is replaced only by a successful
      answer with data; the spinner and the in-flight flag are released
      whatever happened. */
  function Finish(s: Screen, reply: Reply): (r: Screen)
    ensures !r.loading && !r.inFlight
    ensures reply.Answer? && reply.success && reply.data.Some? ==>
      && r.error.None?
      && |r.subjects| == |reply.data.value|
      && (forall i :: 0 <= i < |r.subjects| ==> r.subjects[i] == reply.data.value[i].subject)
    ensures reply.Threw? ==> r.error == Some(Failed) && r.subjects == s.subjects
    ensures reply.Answer? && !(reply.success && reply.data.Some?) ==> r.error == Some(Rejected) && r.subjects == s.subjects
  {
    var released := s.(loading := false, inFlight := false);
    match reply
    case Threw => released.(error := Some(Failed))
    case Answer(ok, data) =>
      if ok && data.Some? then
        released.(subjects := seq(|data.value|, i requires 0 <= i < |data.value| => data.value[i].subject), error := None)
      else released.(error := Some(Rejected))
  }

  /** However the screen is focused while a load runs, one request at most is
      in flight; once it settles the next focus loads again. */
  lemma OneLoadAtATime(s: Screen, online1: bool, online2: bool, reply: Reply)
    requires !s.inFlight
    ensures
      var (s1, req1) := Begin(s);
      var (s2, req2) := Focus(s1, online2);
      req1.Some? && req2.None? && s2.inFlight
    ensures Focus(Finish(Begin(s).0, reply), true).1.Some?
  {
  }

  /** What the screen shows: the spinner while loading, otherwise the error
      instead of the list when there is one. */
  datatype View = Spinner | ErrorText(message: string) | Subjects(names: seq<string>)

  function Render(s: Screen): (v: View)
    ensures v.Spinner? <==> s.loading
    ensures v.Subjects? ==> v.names == s.subjects && s.error.None?
    ensures !s.loading && s.error.Some? ==> v == ErrorText(s.error.value)
  {
    if s.loading then Spinner
    else if s.error.Some? then ErrorText(s.error.value)
    else Subjects(s.subjects)
  }

  /** A successful load that follows an offline focus clears the offline
      message and shows the loaded subjects. */
  lemma ReconnectShowsSubjects(s: Screen, rows: seq<Row>)
    requires !s.inFlight
    ensures
      var offline := Focus(s, false).0;
      var started := Focus(offline, true).0;
      var v := Render(Finish(started, Answer(true, Some(rows))));
      v.Subjects? && |v.names| == |rows| && forall i :: 0 <= i < |rows| ==> v.names[i] == rows[i].subject
  {
  }
}
