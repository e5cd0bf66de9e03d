/** The persisted session list behind `get-sessions`, `save-session` and
    `delete-session`: the value of the store's `sessions` key, newest first.
    A key that was never written reads as the empty list. */
module SessionStore {
  import opened Wrappers
  import opened Text
  import opened SessionData

  /** A stored session record. `Bare` is what a `null` input to
      `save-session` stores: nothing but the generated id and the time stamp. */
  datatype Session =
    | Session(
        id: string,
        platform: string,
        platformName: string,
        accountName: string,
        data: Bundle,
        createdAt: string)
    | Bare(id: string, createdAt: string)

  /** The object the renderer passes to `save-session`. Its fields are spread
      over the new record, so an `id` or `createdAt` present here takes part in
      the merge. The renderer may also pass `null`, which spreads nothing. */
  datatype SessionInput = SessionInput(
    id: Option<string>,
    platform: string,
    platformName: string,
    accountName: string,
    data: Bundle,
    createdAt: Option<string>)

  /** The updated list and the record `save-session` returns. */
  datatype Saved = Saved(sessions: seq<Session>, session: Session)

  /** The updated list and the acknowledgement `delete-session` returns. */
  datatype Deleted = Deleted(sessions: seq<Session>, acknowledged: bool)

  /** `get-sessions` answers the stored list as it is. */
  function GetSessions(sessions: seq<Session>): (listed: seq<Session>)
    ensures listed == sessions
  {
    sessions
  }

  /** Number of records carrying `id`. */
  function CountId(sessions: seq<Session>, id: string): nat
  {
    if |sessions| == 0 then 0
    else (if sessions[0].id == id then 1 else 0) + CountId(sessions[1..], id)
  }

  /** The save takes its id from the clock: the input is `null` or has no id. */
  predicate ClockId(input: Option<SessionInput>)
  {
    input.None? || input.value.id.None?
  }

  /** `save-session`: a record `{id: <now in ms>, ...input, createdAt: <now>}`
      put in front of the list. */
  function SaveSession(sessions: seq<Session>, input: Option<SessionInput>, nowMs: nat, nowIso: string): (r: Saved)
    ensures r.sessions == [r.session] + sessions
    ensures r.sessions[1..] == sessions
    ensures !ClockId(input) ==> r.session.id == input.value.id.value
    ensures ClockId(input) ==> r.session.id == NatToString(nowMs)
    ensures r.session.createdAt == nowIso
    ensures r.session.Bare? <==> input.None?
    ensures input.Some? ==>
      && r.session.platform == input.value.platform && r.session.platformName == input.value.platformName
      && r.session.accountName == input.value.accountName && r.session.data == input.value.data
  {
    // The spread overrides the generated id; the trailing createdAt overrides the input's.
    var record := match input
      case None => Bare(NatToString(nowMs), nowIso)
      case Some(given) =>
        var id := match given.id case Some(i) => i case None => NatToString(nowMs);
        Session(id, given.platform, given.platformName, given.accountName, given.data, nowIso);
    Saved([record] + sessions, record)
  }

  /** `sessions.filter(s => s.id !== id)`. */
  function Without(sessions: seq<Session>, id: string): (r: seq<Session>)
    ensures forall s :: s in r <==> s in sessions && s.id != id
    ensures |r| + CountId(sessions, id) == |sessions|
  {
    if |sessions| == 0 then []
    else if sessions[0].id == id then Without(sessions[1..], id)
    else [sessions[0]] + Without(sessions[1..], id)
  }

  /** `delete-session`: every record with the id is dropped and the call
      acknowledges with `true` whether or not anything matched. */
  function DeleteSession(sessions: seq<Session>, id: string): (r: Deleted)
    ensures r.acknowledged
    ensures forall s :: s in r.sessions <==> s in sessions && s.id != id
    ensures |r.sessions| == |sessions| - CountId(sessions, id)
  {
    Deleted(Without(sessions, id), true)
  }

  /** Index `k` holds the first record carrying `id`. */
  ghost predicate FirstAt(sessions: seq<Session>, id: string, k: int)
  {
    0 <= k < |sessions| && sessions[k].id == id && forall j :: 0 <= j < k ==> sessions[j].id != id
  }

  /** `sessions.find(s => s.id === id)`: the first record with the id. */
  function FindSession(sessions: seq<Session>, id: string): (r: Option<Session>)
    ensures r.None? <==> forall k :: 0 <= k < |sessions| ==> sessions[k].id != id
    ensures r.Some? ==> r.value.id == id && exists k :: FirstAt(sessions, id, k) && sessions[k] == r.value
  {
    if |sessions| == 0 then None
    else if sessions[0].id == id then Some(sessions[0])
    else
      var r := FindSession(sessions[1..], id);
      if r.Some? then
        ghost var k :| FirstAt(sessions[1..], id, k) && sessions[1..][k] == r.value;
        assert FirstAt(sessions, id, k + 1);
        r
      else r
  }

  /** Filtering distributes over concatenation, so the records kept keep
      their relative order. */
  lemma {:induction false} WithoutAppend(a: seq<Session>, b: seq<Session>, id: string)
    ensures Without(a + b, id) == Without(a, id) + Without(b, id)
  {
    if |a| == 0 {
      assert a + b == b;
    } else {
      var ab := a + b;
      assert ab[0] == a[0];
      assert ab[1..] == a[1..] + b;
      WithoutAppend(a[1..], b, id);
      var rest := Without(a[1..], id) + Without(b, id);
      if a[0].id == id {
        assert Without(ab, id) == rest;
      } else {
        assert Without(ab, id) == [a[0]] + rest;
        assert Without(a, id) == [a[0]] + Without(a[1..], id);
      }
    }
  }

  /** Deleting an id no record carries changes nothing. */
  lemma {:induction false} DeleteMissing(sessions: seq<Session>, id: string)
    requires forall k :: 0 <= k < |sessions| ==> sessions[k].id != id
    ensures DeleteSession(sessions, id) == Deleted(sessions, true)
  {
    if |sessions| > 0 {
      DeleteMissing(sessions[1..], id);
      assert sessions == [sessions[0]] + sessions[1..];
    }
  }

  /** Deleting twice is deleting once. */
  lemma DeleteIdempotent(sessions: seq<Session>, id: string)
    ensures DeleteSession(DeleteSession(sessions, id).sessions, id) == DeleteSession(sessions, id)
  {
    var once := DeleteSession(sessions, id).sessions;
    forall k | 0 <= k < |once|
      ensures once[k].id != id
    {
      assert once[k] in once;
    }
    DeleteMissing(once, id);
  }

  /** Deleting the id of a just-saved record restores the list, provided no
      older record shares that id. */
  lemma SaveThenDelete(sessions: seq<Session>, input: Option<SessionInput>, nowMs: nat, nowIso: string)
    requires forall k :: 0 <= k < |sessions| ==>
      sessions[k].id != SaveSession(sessions, input, nowMs, nowIso).session.id
    ensures var saved := SaveSession(sessions, input, nowMs, nowIso);
      DeleteSession(saved.sessions, saved.session.id).sessions == sessions
  {
    var saved := SaveSession(sessions, input, nowMs, nowIso);
    assert saved.sessions[1..] == sessions;
    DeleteMissing(sessions, saved.session.id);
  }

  /** The close-browser button saves `null`: a bare record with the clock id
      and the time stamp goes in front of the list. */
  lemma CloseButtonSavesBareRecord(sessions: seq<Session>, nowMs: nat, nowIso: string)
    ensures var saved := SaveSession(sessions, None, nowMs, nowIso);
      && GetSessions(saved.sessions) == [Bare(NatToString(nowMs), nowIso)] + sessions
      && FindSession(saved.sessions, NatToString(nowMs)) == Some(Bare(NatToString(nowMs), nowIso))
  {
    var saved := SaveSession(sessions, None, nowMs, nowIso);
    assert saved.sessions[0] == Bare(NatToString(nowMs), nowIso);
  }

  /** Two saves at different clock readings without caller ids list newest
      first, with distinct ids, above the earlier records. */
  lemma SaveTwiceNewestFirst(sessions: seq<Session>, first: Option<SessionInput>, second: Option<SessionInput>,
                             t1: nat, t2: nat, iso1: string, iso2: string)
    requires ClockId(first) && ClockId(second) && t1 != t2
    ensures var s1 := SaveSession(sessions, first, t1, iso1);
      var s2 := SaveSession(s1.sessions, second, t2, iso2);
      && GetSessions(s2.sessions) == [s2.session, s1.session] + sessions
      && s2.session.id != s1.session.id
  {
    NatToStringInjective(t1, t2);
  }

  /** Two saves in the same millisecond without caller ids get the same id,
      so one delete of that id removes both records. */
  lemma SameMillisecondSavesShareId(sessions: seq<Session>, first: Option<SessionInput>,
                                    second: Option<SessionInput>, t: nat, iso1: string, iso2: string)
    requires ClockId(first) && ClockId(second)
    ensures var s1 := SaveSession(sessions, first, t, iso1);
      var s2 := SaveSession(s1.sessions, second, t, iso2);
      && s2.session.id == s1.session.id
      && DeleteSession(s2.sessions, s1.session.id).sessions == Without(sessions, s1.session.id)
  {
    var s1 := SaveSession(sessions, first, t, iso1);
    var s2 := SaveSession(s1.sessions, second, t, iso2);
    var id := s1.session.id;
    var tail := s2.sessions[1..];
    assert tail[0] == s1.session && tail[1..] == sessions;
    assert Without(tail, id) == Without(sessions, id);
    assert s2.sessions[0].id == id;
  }
}
