/**
 * StudyMemberService: the membership lifecycle of a study.
 *
 * `getMembers` lists the joined members; `leaveStudy` moves a joined
 * non-leader to LEFT; `expelMember` lets the study's leader move another
 * joined member to BANNED. Both changes post a member-left notification.
 * `Leave` and `Expel` are those two calls as steps on the tables, with the
 * order of their checks and their error codes in their contracts; the
 * service methods perform them on a `Database` and are proved to agree
 * with them. The lemmas after them follow the tables through any sequence
 * of calls: statuses only ever move away from JOINED, leader rows are never
 * touched, and the tables stay consistent.
 */
module StudyMembers {
  import opened Domain
  import opened Store
  import opened Notifications

  /** `requestUserId` is the user of the study's leader row. */
  predicate IsLeader(members: seq<StudyMember>, studyId: StudyId, userId: UserId) {
    match FindLeader(members, studyId)
    case None => false
    case Some(l) => members[l].user == userId
  }

  /**
   * `leaveStudy`. The checks fire in this order: no joined row for the
   * requester gives INVALID_PARAMETER; a leader gives INVALID_REQUEST; a
   * failing member-left notification (no profile) gives its
   * INVALID_REQUEST. A failure changes nothing. On success exactly the
   * requester's row becomes LEFT and one member-left notification for the
   * study is appended.
   */
  function Leave(t: Tables, studyId: StudyId, userId: UserId, now: Timestamp): (s: Step)
    ensures FindJoined(t.members, studyId, userId).None? ==> s == Step(Err(InvalidParameter), t)
    ensures FindJoined(t.members, studyId, userId).Some?
            && t.members[FindJoined(t.members, studyId, userId).value].role == Leader
            ==> s == Step(Err(InvalidRequest), t)
    ensures s.result.Err? ==> s.tables == t
    ensures s.result.Err? && FindJoined(t.members, studyId, userId).Some? ==> s.result.error == InvalidRequest
    ensures s.result.Ok? <==> FindJoined(t.members, studyId, userId).Some?
                              && t.members[FindJoined(t.members, studyId, userId).value].role == Member
                              && userId in t.profiles
    ensures s.result.Ok? ==>
              var i := FindJoined(t.members, studyId, userId).value;
              && s.tables.members == t.members[i := t.members[i].(status := Left)]
              && s.tables.log == t.log + [Record(t, OutMember, studyId, userId, now)]
              && s.tables.profiles == t.profiles && s.tables.studies == t.studies
              && s.tables.nextId == t.nextId + 1
  {
    match FindJoined(t.members, studyId, userId)
    case None => Step(Err(InvalidParameter), t)
    case Some(i) =>
      if t.members[i].role == Leader then Step(Err(InvalidRequest), t)
      else
        var sent := Add(t, OutMember, t.members[i].study, t.members[i].user, now);
        assert FindMember(t.members, studyId, userId).Some?;
        assert t.members[i].user == userId && t.members[i].role == Member;
        assert sent.result.Ok? ==> userId in t.profiles;
        if sent.result.Err? then sent
        else Step(Ok(()), sent.tables.(members := sent.tables.members[i := t.members[i].(status := Left)]))
  }

  /**
   * `expelMember`. The checks fire in this order: a study without a leader
   * row gives INVALID_REQUEST; a requester who is not that leader gives
   * URL_FORBIDDEN; a leader expelling themselves gives INVALID_REQUEST; a
   * target without a joined row gives INVALID_PARAMETER; a failing
   * member-left notification gives its INVALID_REQUEST. A failure changes
   * nothing. On success exactly the target's row becomes BANNED and one
   * member-left notification for the study is appended.
   */
  function Expel(t: Tables, studyId: StudyId, expelUserId: UserId, requestUserId: UserId, now: Timestamp)
    : (s: Step)
    ensures FindLeader(t.members, studyId).None? ==> s == Step(Err(InvalidRequest), t)
    ensures FindLeader(t.members, studyId).Some? && !IsLeader(t.members, studyId, requestUserId)
            ==> s == Step(Err(UrlForbidden), t)
    ensures IsLeader(t.members, studyId, requestUserId) && requestUserId == expelUserId
            ==> s == Step(Err(InvalidRequest), t)
    ensures IsLeader(t.members, studyId, requestUserId) && requestUserId != expelUserId
            && FindJoined(t.members, studyId, expelUserId).None?
            ==> s == Step(Err(InvalidParameter), t)
    ensures s.result.Err? ==> s.tables == t
    ensures s.result.Err? && IsLeader(t.members, studyId, requestUserId) && requestUserId != expelUserId
            && FindJoined(t.members, studyId, expelUserId).Some?
            ==> s.result.error == InvalidRequest
    ensures s.result.Ok? <==> IsLeader(t.members, studyId, requestUserId) && requestUserId != expelUserId
                              && FindJoined(t.members, studyId, expelUserId).Some?
                              && expelUserId in t.profiles
    ensures s.result.Ok? ==>
              var j := FindJoined(t.members, studyId, expelUserId).value;
              && s.tables.members == t.members[j := t.members[j].(status := Banned)]
              && s.tables.log == t.log + [Record(t, OutMember, studyId, expelUserId, now)]
              && s.tables.profiles == t.profiles && s.tables.studies == t.studies
              && s.tables.nextId == t.nextId + 1
  {
    match FindLeader(t.members, studyId)
    case None => Step(Err(InvalidRequest), t)
    case Some(l) =>
      if t.members[l].user != requestUserId then Step(Err(UrlForbidden), t)
      else if requestUserId == expelUserId then Step(Err(InvalidRequest), t)
      else match FindJoined(t.members, studyId, expelUserId)
        case None => Step(Err(InvalidParameter), t)
        case Some(j) =>
          var banned := t.(members := t.members[j := t.members[j].(status := Banned)]);
          var sent := Add(banned, OutMember, t.members[l].study, t.members[j].user, now);
          assert banned.members[j].study == studyId && banned.members[j].user == expelUserId;
          // a failed notification rolls the status change back
          if sent.result.Err? then Step(sent.result, t) else sent
  }

  /** A successful expulsion never touches the leader's own row. */
  lemma ExpelSparesRequester(t: Tables, studyId: StudyId, expelUserId: UserId, requestUserId: UserId,
                             now: Timestamp)
    requires Expel(t, studyId, expelUserId, requestUserId, now).result.Ok?
    ensures var l := FindLeader(t.members, studyId).value;
            Expel(t, studyId, expelUserId, requestUserId, now).tables.members[l] == t.members[l]
  {
  }

  /**
   * Only the status of a row ever changes, and only a JOINED row's:
   * LEFT and BANNED rows are final.
   */
  ghost predicate Retires(before: seq<StudyMember>, after: seq<StudyMember>) {
    && |after| == |before|
    && forall i :: 0 <= i < |before| ==>
         after[i] == before[i] || (before[i].status == Joined && after[i] == before[i].(status := after[i].status))
  }

  /** Any service call the model covers. */
  datatype Request =
    | LeaveRequest(studyId: StudyId, userId: UserId, now: Timestamp)
    | ExpelRequest(studyId: StudyId, expelUserId: UserId, requestUserId: UserId, now: Timestamp)
    | NotifyRequest(kind: Kind, studyId: StudyId, actorId: UserId, now: Timestamp)

  function Apply(t: Tables, req: Request): Step {
    match req
    case LeaveRequest(s, u, now) => Leave(t, s, u, now)
    case ExpelRequest(s, e, u, now) => Expel(t, s, e, u, now)
    case NotifyRequest(k, s, a, now) => Add(t, k, s, a, now)
  }

  /** The tables after a sequence of calls, failing ones included. */
  function Run(t: Tables, reqs: seq<Request>): Tables
    decreases |reqs|
  {
    if reqs == [] then t else Run(Apply(t, reqs[0]).tables, reqs[1..])
  }

  lemma ApplyRetires(t: Tables, req: Request)
    ensures Retires(t.members, Apply(t, req).tables.members)
  {
  }

  /** However many calls are made, a row only ever leaves JOINED, and only its status changes. */
  lemma {:induction false} RunRetires(t: Tables, reqs: seq<Request>)
    ensures Retires(t.members, Run(t, reqs).members)
    decreases |reqs|
  {
    if reqs != [] {
      var next := Apply(t, reqs[0]).tables;
      ApplyRetires(t, reqs[0]);
      RunRetires(next, reqs[1..]);
    }
  }

  /** A LEFT or BANNED row is never changed back, by any sequence of calls. */
  lemma RunNeverRestores(t: Tables, reqs: seq<Request>, i: nat)
    requires i < |t.members| && t.members[i].status != Joined
    ensures i < |Run(t, reqs).members| && Run(t, reqs).members[i] == t.members[i]
  {
    RunRetires(t, reqs);
  }

  /** Changing the status of one row keeps the tables consistent. */
  lemma SetStatusKeepsWellFormed(t: Tables, i: nat, status: Status)
    requires WellFormed(t) && i < |t.members|
    ensures WellFormed(t.(members := t.members[i := t.members[i].(status := status)]))
  {
  }

  lemma ApplyKeepsWellFormed(t: Tables, req: Request)
    requires WellFormed(t)
    ensures WellFormed(Apply(t, req).tables)
  {
    match req
    case LeaveRequest(s, u, now) =>
      if Leave(t, s, u, now).result.Ok? {
        var i := FindJoined(t.members, s, u).value;
        AddKeepsWellFormed(t, OutMember, s, u, now);
        SetStatusKeepsWellFormed(Add(t, OutMember, s, u, now).tables, i, Left);
      }
    case ExpelRequest(s, e, u, now) =>
      if Expel(t, s, e, u, now).result.Ok? {
        var j := FindJoined(t.members, s, e).value;
        SetStatusKeepsWellFormed(t, j, Banned);
        AddKeepsWellFormed(t.(members := t.members[j := t.members[j].(status := Banned)]), OutMember, s, e, now);
      }
    case NotifyRequest(k, s, a, now) =>
      AddKeepsWellFormed(t, k, s, a, now);
  }

  lemma {:induction false} RunKeepsWellFormed(t: Tables, reqs: seq<Request>)
    requires WellFormed(t)
    ensures WellFormed(Run(t, reqs))
    decreases |reqs|
  {
    if reqs != [] {
      ApplyKeepsWellFormed(t, reqs[0]);
      RunKeepsWellFormed(Apply(t, reqs[0]).tables, reqs[1..]);
    }
  }

  /** No call changes a leader row: a leader cannot leave, and cannot be expelled. */
  lemma ApplySparesLeaders(t: Tables, req: Request, i: nat)
    requires WellFormed(t) && i < |t.members| && t.members[i].role == Leader
    ensures Apply(t, req).tables.members[i] == t.members[i]
  {
  }

  /** However many calls are made, a leader row stays as it was (so a joined leader stays joined). */
  lemma {:induction false} RunSparesLeaders(t: Tables, reqs: seq<Request>, i: nat)
    requires WellFormed(t) && i < |t.members| && t.members[i].role == Leader
    ensures i < |Run(t, reqs).members| && Run(t, reqs).members[i] == t.members[i]
    decreases |reqs|
  {
    if reqs != [] {
      var next := Apply(t, reqs[0]).tables;
      ApplyRetires(t, reqs[0]);
      ApplySparesLeaders(t, reqs[0], i);
      ApplyKeepsWellFormed(t, reqs[0]);
      RunSparesLeaders(next, reqs[1..], i);
    }
  }

  /**
   * Retiring one joined row of a study removes exactly that row from the
   * study's joined list.
   */
  lemma {:induction false} RetireDropsOne(ms: seq<StudyMember>, i: nat, status: Status, study: StudyId)
    requires i < |ms| && ms[i].study == study && ms[i].status == Joined && status != Joined
    ensures |JoinedOf(ms[i := ms[i].(status := status)], study)| + 1 == |JoinedOf(ms, study)|
    decreases |ms|
  {
    var after := ms[i := ms[i].(status := status)];
    if i == 0 {
      assert after[1..] == ms[1..];
    } else {
      assert after[1..] == ms[1..][i - 1 := ms[i].(status := status)];
      RetireDropsOne(ms[1..], i - 1, status, study);
    }
  }

  /**
   * After a successful `leaveStudy` the requester no longer appears among
   * the joined members of the study, and the list is one shorter.
   */
  lemma LeaveDropsFromMembers(t: Tables, studyId: StudyId, userId: UserId, now: Timestamp)
    requires WellFormed(t) && Leave(t, studyId, userId, now).result.Ok?
    ensures var after := Leave(t, studyId, userId, now).tables.members;
            && (forall m :: m in JoinedOf(after, studyId) ==> m.user != userId)
            && |JoinedOf(after, studyId)| + 1 == |JoinedOf(t.members, studyId)|
  {
    var i := FindJoined(t.members, studyId, userId).value;
    RetireDropsOne(t.members, i, Left, studyId);
    DroppedIsGone(t.members, i, Left, studyId);
  }

  /**
   * After a successful `expelMember` the target no longer appears among the
   * joined members of the study, and the list is one shorter.
   */
  lemma ExpelDropsFromMembers(t: Tables, studyId: StudyId, expelUserId: UserId, requestUserId: UserId,
                              now: Timestamp)
    requires WellFormed(t) && Expel(t, studyId, expelUserId, requestUserId, now).result.Ok?
    ensures var after := Expel(t, studyId, expelUserId, requestUserId, now).tables.members;
            && (forall m :: m in JoinedOf(after, studyId) ==> m.user != expelUserId)
            && |JoinedOf(after, studyId)| + 1 == |JoinedOf(t.members, studyId)|
  {
    var j := FindJoined(t.members, studyId, expelUserId).value;
    RetireDropsOne(t.members, j, Banned, studyId);
    DroppedIsGone(t.members, j, Banned, studyId);
  }

  /** With unique keys, a retired row's user has no other joined row in that study. */
  lemma DroppedIsGone(ms: seq<StudyMember>, i: nat, status: Status, study: StudyId)
    requires UniqueKeys(ms) && i < |ms| && ms[i].study == study && status != Joined
    ensures forall m :: m in JoinedOf(ms[i := ms[i].(status := status)], study) ==> m.user != ms[i].user
  {
  }

  /** The membership operations, acting on the database shared with the notification service. */
  class StudyMemberService {
    const db: Database
    const notificationService: NotificationService

    ghost predicate Valid()
      reads db
    {
      notificationService.db == db && db.Valid()
    }

    constructor (notificationService: NotificationService)
      ensures this.notificationService == notificationService && db == notificationService.db
    {
      this.notificationService := notificationService;
      this.db := notificationService.db;
    }

    /**
     * `getMembers`: after the membership check (`memberValid`), one entry per
     * joined member of the study, in table order, carrying that member's user
     * id, nickname and role name. A joined member without a profile makes the
     * profile lookup fail.
     */
    method GetMembers(studyId: StudyId, userId: UserId, memberValid: bool) returns (r: Result<MembersResponse>)
      ensures !memberValid ==> r == Err(MemberValidationFailed)
      ensures memberValid ==> (r.Ok? <==> forall m :: m in JoinedOf(db.members, studyId) ==> m.user in db.profiles)
      ensures memberValid && r.Err? ==> r.error == ProfileNotFound
      ensures r.Ok? ==>
                var joined := JoinedOf(db.members, studyId);
                && r.value.studyId == studyId
                && |r.value.members| == |joined|
                && forall i :: 0 <= i < |joined| ==>
                     r.value.members[i]
                     == MemberEntry(joined[i].user, db.profiles[joined[i].user].nickname, RoleName(joined[i].role))
    {
      if !memberValid {
        return Err(MemberValidationFailed);
      }
      var joined := JoinedOf(db.members, studyId);

      // one profile lookup per joined member, in order
      var profiles: seq<UserProfile> := [];
      var k := 0;
      while k < |joined|
        invariant 0 <= k <= |joined| && |profiles| == k
        invariant forall i :: 0 <= i < k ==> joined[i].user in db.profiles && profiles[i] == db.profiles[joined[i].user]
      {
        if joined[k].user !in db.profiles {
          return Err(ProfileNotFound);
        }
        profiles := profiles + [db.profiles[joined[k].user]];
        k := k + 1;
      }

      var members: seq<MemberEntry> := [];
      var index := 0;
      while index < |joined|
        invariant 0 <= index <= |joined| && |members| == index
        invariant forall i :: 0 <= i < index ==>
                    members[i] == MemberEntry(joined[i].user, profiles[i].nickname, RoleName(joined[i].role))
      {
        var profile := profiles[index];
        var member := joined[index];
        members := members + [MemberEntry(member.user, profile.nickname, RoleName(member.role))];
        index := index + 1;
      }
      r := Ok(MembersResponse(studyId, members));
    }

    /** `leaveStudy`, performed on the database. */
    method LeaveStudy(studyId: StudyId, requestUserId: UserId, now: Timestamp) returns (r: Result<()>)
      requires Valid()
      modifies db
      ensures Valid()
      ensures Step(r, db.View()) == Leave(old(db.View()), studyId, requestUserId, now)
    {
      var found := FindJoined(db.members, studyId, requestUserId);
      if found.None? {
        return Err(InvalidParameter);
      }
      var member := db.members[found.value];
      if member.role == Leader {
        return Err(InvalidRequest);
      }
      r := notificationService.AddOutMemberNotification(member.study, member.user, now);
      if r.Err? {
        return;
      }
      db.UpdateStatus(found.value, Left);
    }

    /** `expelMember`, performed on the database. */
    method ExpelMember(studyId: StudyId, expelUserId: UserId, requestUserId: UserId, now: Timestamp)
      returns (r: Result<()>)
      requires Valid()
      modifies db
      ensures Valid()
      ensures Step(r, db.View()) == Expel(old(db.View()), studyId, expelUserId, requestUserId, now)
    {
      var leader := FindLeader(db.members, studyId);
      if leader.None? {
        return Err(InvalidRequest);
      }
      var leaderMember := db.members[leader.value];
      if leaderMember.user != requestUserId {
        return Err(UrlForbidden);
      }
      if requestUserId == expelUserId {
        return Err(InvalidRequest);
      }
      var target := FindJoined(db.members, studyId, expelUserId);
      if target.None? {
        return Err(InvalidParameter);
      }
      var memberExpel := db.members[target.value];
      db.UpdateStatus(target.value, Banned);
      r := notificationService.AddOutMemberNotification(leaderMember.study, memberExpel.user, now);
      if r.Err? {
        // the failed notification rolls the status change back
        db.UpdateStatus(target.value, memberExpel.status);
      }
    }
  }
}
