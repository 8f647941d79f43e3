/**
 * The persistence layer the two services share: the membership table, the
 * user profiles, the set of existing studies and the notification log,
 * together with the repository queries the services issue against them.
 *
 * The queries are functions of the table values; the `Database` class holds
 * the tables and offers the two writes the services perform (a status
 * update of one membership row, the save of one notification).
 */
module Store {
  import opened Domain

  /** The index of the first element satisfying `p`, if any. */
  function FirstWhere<T>(s: seq<T>, p: T -> bool): (r: Option<nat>)
    ensures r.Some? ==> r.value < |s| && p(s[r.value])
    ensures r.Some? ==> forall j :: 0 <= j < r.value ==> !p(s[j])
    ensures r.None? ==> forall j :: 0 <= j < |s| ==> !p(s[j])
  {
    if |s| == 0 then None
    else if p(s[0]) then Some(0)
    else match FirstWhere(s[1..], p)
      case None => None
      case Some(k) => Some(k + 1)
  }

  /** `findByStudyIdAndUserId`: the row of `user` in `study`, whatever its status. */
  function FindMember(members: seq<StudyMember>, study: StudyId, user: UserId): (r: Option<nat>)
    ensures r.Some? ==> r.value < |members| && members[r.value].study == study && members[r.value].user == user
    ensures r.None? ==> forall i :: 0 <= i < |members| ==> !(members[i].study == study && members[i].user == user)
  {
    FirstWhere(members, (m: StudyMember) => m.study == study && m.user == user)
  }

  /** `findByStudyIdAndUserIdAndStatus(study, user, JOINED)`. */
  function FindJoined(members: seq<StudyMember>, study: StudyId, user: UserId): (r: Option<nat>)
    ensures r.Some? ==> r.value < |members| && members[r.value].study == study
                        && members[r.value].user == user && members[r.value].status == Joined
    ensures r.None? ==> forall i :: 0 <= i < |members| ==>
                          !(members[i].study == study && members[i].user == user && members[i].status == Joined)
  {
    FirstWhere(members, (m: StudyMember) => m.study == study && m.user == user && m.status == Joined)
  }

  /** `findByStudyIdAndRole(study, LEADER)`: the leader row, whatever its status. */
  function FindLeader(members: seq<StudyMember>, study: StudyId): (r: Option<nat>)
    ensures r.Some? ==> r.value < |members| && members[r.value].study == study && members[r.value].role == Leader
    ensures r.None? ==> forall i :: 0 <= i < |members| ==> !(members[i].study == study && members[i].role == Leader)
  {
    FirstWhere(members, (m: StudyMember) => m.study == study && m.role == Leader)
  }

  /** `findById` on the notification log. */
  function FindNotification(log: seq<Notification>, id: NotificationId): (r: Option<nat>)
    ensures r.Some? ==> r.value < |log| && log[r.value].id == id
    ensures r.None? ==> forall i :: 0 <= i < |log| ==> log[i].id != id
  {
    FirstWhere(log, (n: Notification) => n.id == id)
  }

  /**
   * `findAllByStudy_IdAndStatus(study, JOINED)`: the joined rows of `study`,
   * in table order.
   */
  function JoinedOf(members: seq<StudyMember>, study: StudyId): (r: seq<StudyMember>)
    ensures |r| <= |members|
    ensures forall m :: m in r <==> m in members && m.study == study && m.status == Joined
  {
    if members == [] then []
    else
      var rest := JoinedOf(members[1..], study);
      if members[0].study == study && members[0].status == Joined then [members[0]] + rest else rest
  }

  /** The joined rows of a study grow by exactly what is appended to the table for it. */
  lemma {:induction false} JoinedOfAppend(members: seq<StudyMember>, m: StudyMember, study: StudyId)
    ensures JoinedOf(members + [m], study)
            == JoinedOf(members, study) + (if m.study == study && m.status == Joined then [m] else [])
  {
    if members == [] {
      assert [m][1..] == [];
    } else {
      assert (members + [m])[1..] == members[1..] + [m];
      JoinedOfAppend(members[1..], m, study);
    }
  }

  /** The notifications of `study`, in log order. */
  function NotificationsOf(log: seq<Notification>, study: StudyId): (r: seq<Notification>)
    ensures |r| <= |log|
    ensures forall n :: n in r <==> n in log && n.study == study
  {
    if log == [] then []
    else
      var rest := NotificationsOf(log[1..], study);
      if log[0].study == study then [log[0]] + rest else rest
  }

  /** The notifications of a study grow by exactly what is appended for it. */
  lemma {:induction false} NotificationsOfAppend(log: seq<Notification>, n: Notification, study: StudyId)
    ensures NotificationsOf(log + [n], study)
            == NotificationsOf(log, study) + (if n.study == study then [n] else [])
  {
    if log == [] {
      assert [n][1..] == [];
    } else {
      assert (log + [n])[1..] == log[1..] + [n];
      NotificationsOfAppend(log[1..], n, study);
    }
  }

  /** A snapshot of every table the services touch. */
  datatype Tables = Tables(
    members: seq<StudyMember>,
    profiles: map<UserId, UserProfile>,
    studies: set<StudyId>,
    log: seq<Notification>,
    nextId: NotificationId)

  /** The outcome of one service call: what it returned and the tables after it. */
  datatype Step = Step(result: Result<()>, tables: Tables)

  /** No two membership rows share a (study, user) key. */
  ghost predicate UniqueKeys(members: seq<StudyMember>) {
    forall i, j :: 0 <= i < j < |members| ==>
      !(members[i].study == members[j].study && members[i].user == members[j].user)
  }

  /** A study has at most one leader row. */
  ghost predicate SingleLeader(members: seq<StudyMember>) {
    forall i, j :: 0 <= i < j < |members| && members[i].role == Leader && members[j].role == Leader ==>
      members[i].study != members[j].study
  }

  /**
   * The consistency the repository queries rely on: the single-result
   * queries above have at most one match, foreign keys point at existing
   * studies, and notification ids are issued in increasing order below
   * `nextId`.
   */
  ghost predicate WellFormed(t: Tables) {
    && UniqueKeys(t.members)
    && SingleLeader(t.members)
    && (forall i :: 0 <= i < |t.members| ==> t.members[i].study in t.studies)
    && (forall i :: 0 <= i < |t.log| ==> t.log[i].id < t.nextId && t.log[i].study in t.studies)
    && (forall i, j :: 0 <= i < j < |t.log| ==> t.log[i].id < t.log[j].id)
  }

  /** The tables, held in place. */
  class Database {
    var members: seq<StudyMember>
    var profiles: map<UserId, UserProfile>
    var studies: set<StudyId>
    var notifications: seq<Notification>
    var nextId: NotificationId

    function View(): Tables
      reads this
    {
      Tables(members, profiles, studies, notifications, nextId)
    }

    ghost predicate Valid()
      reads this
    {
      WellFormed(View())
    }

    constructor (initial: Tables)
      requires WellFormed(initial)
      ensures Valid() && View() == initial
    {
      members := initial.members;
      profiles := initial.profiles;
      studies := initial.studies;
      notifications := initial.log;
      nextId := initial.nextId;
    }

    /** `StudyMember.updateStatus` on row `i`: only that row's status changes. */
    method UpdateStatus(i: nat, status: Status)
      requires Valid() && i < |members|
      modifies this`members
      ensures Valid()
      ensures members == old(members)[i := old(members)[i].(status := status)]
    {
      members := members[i := members[i].(status := status)];
    }

    /** `notificationRepository.save`: appends one record under a fresh id. */
    method Save(study: StudyId, actor: UserId, audience: Audience, title: string,
                description: string, createdAt: Timestamp) returns (id: NotificationId)
      requires Valid() && study in studies
      modifies this`notifications, this`nextId
      ensures Valid()
      ensures id == old(nextId) && nextId == old(nextId) + 1
      ensures notifications == old(notifications)
                               + [Notification(id, study, actor, audience, title, description, createdAt)]
    {
      id := nextId;
      notifications := notifications + [Notification(id, study, actor, audience, title, description, createdAt)];
      nextId := nextId + 1;
    }
  }
}
