/**
 * NotificationService: building the in-app notifications of a study and
 * reading them back.
 *
 * The five `add…Notification` operations share one shape: look up the
 * actor's membership row in the study, for the member-joined and
 * member-left kinds also the actor's profile, compose a title and a
 * description from fixed phrases, pick the audience, and save exactly one
 * record. `Add` is that step as a function of the tables; the methods of
 * `NotificationService` perform it on a `Database` and are proved to agree
 * with it. The two read operations are functions of the tables.
 */
module Notifications {
  import opened Domain
  import opened Store

  /** Which `add…Notification` operation, with the text it is given. */
  datatype Kind =
    | Assignment(assignmentTitle: string)
    | Announcement(announcementTitle: string)
    | NewMember
    | OutMember
    | NewApplication

  /** The kinds whose text names the actor, and so need the actor's profile. */
  predicate NeedsProfile(kind: Kind) {
    kind.NewMember? || kind.OutMember?
  }

  const AssignmentTitleSuffix: string := " 과제 생성 알림."
  const AssignmentDescriptionPrefix: string := "과제 게시판에 "
  const AssignmentDescriptionSuffix: string := " 게시글이 생성되었습니다. 마감일 확인 후 마감일까지 제출 바랍니다."
  const AnnouncementTitleSuffix: string := " 공지 생성 알림"
  const AnnouncementDescriptionPrefix: string := "공지 게시판에 "
  const AnnouncementDescriptionSuffix: string := " 게시글이 생성되었습니다. 스터디원들께서는 확인 바랍니다."
  const NewMemberTitleSuffix: string := "님이 새로 가입하였습니다!"
  const NewMemberDescriptionSuffix: string := "님이 스터디에 새롭게 들어왔습니다! 모두 반갑게 맞아주세요~"
  const OutMemberTitle: string := "회원 탈퇴 알림"
  const OutMemberDescriptionSuffix: string := "님이 스터디에서 탈퇴하셨습니다."
  const NewApplicationTitle: string := "신규 지원서 알림"
  const NewApplicationDescription: string := "신규 회원이 승인 대기 중입니다. 그룹장께서는 확인 바랍니다."

  datatype Message = Message(title: string, description: string, audience: Audience)

  /** The text and audience of a notification of `kind`; `nickname` is the actor's. */
  function Compose(kind: Kind, nickname: string): Message {
    match kind
    case Assignment(t) =>
      Message(t + AssignmentTitleSuffix,
              AssignmentDescriptionPrefix + t + AssignmentDescriptionSuffix, AllMembers)
    case Announcement(t) =>
      Message(t + AnnouncementTitleSuffix,
              AnnouncementDescriptionPrefix + t + AnnouncementDescriptionSuffix, AllMembers)
    case NewMember =>
      Message(nickname + NewMemberTitleSuffix, nickname + NewMemberDescriptionSuffix, AllMembers)
    case OutMember =>
      Message(OutMemberTitle, nickname + OutMemberDescriptionSuffix, AllMembers)
    case NewApplication =>
      Message(NewApplicationTitle, NewApplicationDescription, LeaderOnly)
  }

  /** The nickname the text of `kind` is composed with. */
  function Nickname(t: Tables, kind: Kind, actorId: UserId): string
    requires NeedsProfile(kind) ==> actorId in t.profiles
  {
    if NeedsProfile(kind) then t.profiles[actorId].nickname else ""
  }

  /** The record a successful `Add` appends. */
  function Record(t: Tables, kind: Kind, study: StudyId, actorId: UserId, now: Timestamp): Notification
    requires NeedsProfile(kind) ==> actorId in t.profiles
  {
    var m := Compose(kind, Nickname(t, kind, actorId));
    Notification(t.nextId, study, actorId, m.audience, m.title, m.description, now)
  }

  /**
   * One `add…Notification` call. It fails with INVALID_REQUEST, changing
   * nothing, when the actor has no membership row in the study or (for the
   * kinds that name the actor) no profile; otherwise it appends exactly
   * one record, for this study and this actor, under a fresh id, and
   * touches no other table.
   */
  function Add(t: Tables, kind: Kind, study: StudyId, actorId: UserId, now: Timestamp): (s: Step)
    ensures s.result.Ok? <==> FindMember(t.members, study, actorId).Some?
                              && (NeedsProfile(kind) ==> actorId in t.profiles)
    ensures s.result.Err? ==> s.result.error == InvalidRequest && s.tables == t
    ensures s.result.Ok? ==>
              && s.tables.members == t.members && s.tables.profiles == t.profiles
              && s.tables.studies == t.studies && s.tables.nextId == t.nextId + 1
              && |s.tables.log| == |t.log| + 1 && s.tables.log[..|t.log|] == t.log
              && s.tables.log[|t.log|].study == study && s.tables.log[|t.log|].actor == actorId
              && s.tables.log[|t.log|].id == t.nextId && s.tables.log[|t.log|].createdAt == now
  {
    if FindMember(t.members, study, actorId).None? then Step(Err(InvalidRequest), t)
    else if NeedsProfile(kind) && actorId !in t.profiles then Step(Err(InvalidRequest), t)
    else Step(Ok(()), t.(log := t.log + [Record(t, kind, study, actorId, now)], nextId := t.nextId + 1))
  }

  /** What each kind appends: its fixed title and description shapes and its audience. */
  lemma MessageOfEachKind(t: Tables, kind: Kind, study: StudyId, actorId: UserId, now: Timestamp)
    requires Add(t, kind, study, actorId, now).result.Ok?
    ensures var n := Add(t, kind, study, actorId, now).tables.log[|t.log|];
      && (kind.Assignment? ==>
            n.title == kind.assignmentTitle + AssignmentTitleSuffix
            && n.description == AssignmentDescriptionPrefix + kind.assignmentTitle + AssignmentDescriptionSuffix)
      && (kind.Announcement? ==>
            n.title == kind.announcementTitle + AnnouncementTitleSuffix
            && n.description == AnnouncementDescriptionPrefix + kind.announcementTitle + AnnouncementDescriptionSuffix)
      && (kind.NewMember? ==>
            n.title == t.profiles[actorId].nickname + NewMemberTitleSuffix
            && n.description == t.profiles[actorId].nickname + NewMemberDescriptionSuffix)
      && (kind.OutMember? ==>
            n.title == OutMemberTitle && n.description == t.profiles[actorId].nickname + OutMemberDescriptionSuffix)
      && (kind.NewApplication? ==> n.title == NewApplicationTitle && n.description == NewApplicationDescription)
      && (NeedsProfile(kind) ==> t.profiles[actorId].nickname <= n.description)
      && (n.audience == LeaderOnly <==> kind.NewApplication?)
      && (n.audience == AllMembers <==> !kind.NewApplication?)
  {
  }

  /** A successful `Add` keeps the tables consistent. */
  lemma AddKeepsWellFormed(t: Tables, kind: Kind, study: StudyId, actorId: UserId, now: Timestamp)
    requires WellFormed(t)
    ensures WellFormed(Add(t, kind, study, actorId, now).tables)
  {
  }

  /** The list entry of one notification. */
  function Entry(n: Notification): NotificationEntry {
    NotificationEntry(n.id, n.title, n.audience)
  }

  /** The stream projection of the stored list onto list entries. */
  function Project(ns: seq<Notification>): (r: seq<NotificationEntry>)
    ensures |r| == |ns|
    ensures forall i :: 0 <= i < |ns| ==> r[i] == NotificationEntry(ns[i].id, ns[i].title, ns[i].audience)
  {
    if ns == [] then [] else [Entry(ns[0])] + Project(ns[1..])
  }

  /**
   * `getNotifications`: after the membership check (`memberValid`) and the
   * study lookup, the study's stored notifications projected one to one.
   */
  function GetNotifications(t: Tables, studyId: StudyId, userId: UserId, memberValid: bool)
    : (r: Result<seq<NotificationEntry>>)
    ensures !memberValid ==> r == Err(MemberValidationFailed)
    ensures memberValid && studyId !in t.studies ==> r == Err(InvalidRequest)
    ensures r.Ok? <==> memberValid && studyId in t.studies
    ensures r.Ok? ==>
              var stored := NotificationsOf(t.log, studyId);
              && |r.value| == |stored|
              && forall i :: 0 <= i < |stored| ==>
                   r.value[i] == NotificationEntry(stored[i].id, stored[i].title, stored[i].audience)
  {
    if !memberValid then Err(MemberValidationFailed)
    else if studyId !in t.studies then Err(InvalidRequest)
    else Ok(Project(NotificationsOf(t.log, studyId)))
  }

  /**
   * A successful `Add` makes exactly one new entry appear, at the end of
   * its own study's list, and leaves every other study's list as it was.
   */
  lemma AddExtendsList(t: Tables, kind: Kind, study: StudyId, actorId: UserId, now: Timestamp,
                       other: StudyId, userId: UserId)
    requires Add(t, kind, study, actorId, now).result.Ok?
    requires other in t.studies
    ensures var before := GetNotifications(t, other, userId, true).value;
            var after := GetNotifications(Add(t, kind, study, actorId, now).tables, other, userId, true).value;
            && (other == study ==> after == before + [Entry(Record(t, kind, study, actorId, now))])
            && (other != study ==> after == before)
  {
    var n := Record(t, kind, study, actorId, now);
    NotificationsOfAppend(t.log, n, other);
    var ns := NotificationsOf(t.log, other);
    if other == study {
      assert Project(ns + [n]) == Project(ns) + [Entry(n)];
    }
  }

  /** The detail view of one notification. */
  function DetailOf(n: Notification): NotificationDetail {
    NotificationDetail(n.title, n.description, n.createdAt)
  }

  /**
   * `getNotificationDetail`, as written: after the membership check and the
   * study lookup, the notification is looked up by id alone.
   */
  function GetNotificationDetail(t: Tables, studyId: StudyId, notificationId: NotificationId,
                                 userId: UserId, memberValid: bool): (r: Result<NotificationDetail>)
    ensures !memberValid ==> r == Err(MemberValidationFailed)
    ensures memberValid && studyId !in t.studies ==> r == Err(InvalidRequest)
    ensures memberValid && studyId in t.studies ==>
              (r.Ok? <==> exists i :: 0 <= i < |t.log| && t.log[i].id == notificationId)
    ensures r.Err? && memberValid && studyId in t.studies ==> r.error == InvalidRequest
    ensures r.Ok? ==> exists i :: 0 <= i < |t.log| && t.log[i].id == notificationId
                                  && r.value == NotificationDetail(t.log[i].title, t.log[i].description, t.log[i].createdAt)
  {
    if !memberValid then Err(MemberValidationFailed)
    else if studyId !in t.studies then Err(InvalidRequest)
    else match FindNotification(t.log, notificationId)
      case None => Err(InvalidRequest)
      case Some(i) => Ok(DetailOf(t.log[i]))
  }

  /** Ids are unique in consistent tables, so the detail is that of the one record with the id. */
  lemma DetailIsOfThatRecord(t: Tables, studyId: StudyId, k: nat, userId: UserId)
    requires WellFormed(t) && studyId in t.studies && k < |t.log|
    ensures GetNotificationDetail(t, studyId, t.log[k].id, userId, true) == Ok(DetailOf(t.log[k]))
  {
  }

  /**
   * The as-written lookup hands user 5, a joined member of study 1 only,
   * the detail of a notification that belongs to study 2.
   */
  lemma DetailCrossesStudies()
    ensures var n := Notification(0, 2, 7, AllMembers, OutMemberTitle, OutMemberDescriptionSuffix, 0);
            var t := Tables([StudyMember(2, 7, Leader, Joined), StudyMember(1, 5, Member, Joined)],
                            map[], {1, 2}, [n], 1);
            && WellFormed(t)
            && GetNotificationDetail(t, 1, 0, 5, true) == Ok(DetailOf(n))
  {
  }

  /**
   * The detail lookup scoped to the study named in the request: a
   * notification of another study is treated like a missing one.
   */
  function GetStudyNotificationDetail(t: Tables, studyId: StudyId, notificationId: NotificationId,
                                      userId: UserId, memberValid: bool): (r: Result<NotificationDetail>)
    ensures !memberValid ==> r == Err(MemberValidationFailed)
    ensures memberValid && studyId !in t.studies ==> r == Err(InvalidRequest)
    ensures r.Err? && memberValid ==> r.error == InvalidRequest
    ensures r.Ok? ==> exists i :: 0 <= i < |t.log| && t.log[i].id == notificationId && t.log[i].study == studyId
                                  && r.value == DetailOf(t.log[i])
  {
    if !memberValid then Err(MemberValidationFailed)
    else if studyId !in t.studies then Err(InvalidRequest)
    else match FindNotification(t.log, notificationId)
      case None => Err(InvalidRequest)
      case Some(i) => if t.log[i].study == studyId then Ok(DetailOf(t.log[i])) else Err(InvalidRequest)
  }

  /**
   * In consistent tables the scoped lookup returns exactly the study's own
   * notifications: it agrees with the as-written one on them and refuses
   * every other id.
   */
  lemma ScopedDetailIsOwnStudy(t: Tables, studyId: StudyId, k: nat, userId: UserId)
    requires WellFormed(t) && studyId in t.studies && k < |t.log|
    ensures t.log[k].study == studyId ==>
              GetStudyNotificationDetail(t, studyId, t.log[k].id, userId, true)
              == GetNotificationDetail(t, studyId, t.log[k].id, userId, true) == Ok(DetailOf(t.log[k]))
    ensures t.log[k].study != studyId ==>
              GetStudyNotificationDetail(t, studyId, t.log[k].id, userId, true) == Err(InvalidRequest)
  {
  }

  /** The notification operations, acting on one database. */
  class NotificationService {
    const db: Database

    constructor (db: Database)
      ensures this.db == db
    {
      this.db := db;
    }

    /** The common body of the five `add…Notification` methods. */
    method Publish(kind: Kind, study: StudyId, actorId: UserId, now: Timestamp) returns (r: Result<()>)
      requires db.Valid()
      modifies db
      ensures db.Valid()
      ensures Step(r, db.View()) == Add(old(db.View()), kind, study, actorId, now)
    {
      var actor := FindMember(db.members, study, actorId);
      if actor.None? {
        return Err(InvalidRequest);
      }
      var nickname := "";
      if NeedsProfile(kind) {
        if actorId !in db.profiles {
          return Err(InvalidRequest);
        }
        nickname := db.profiles[actorId].nickname;
      }
      var message := Compose(kind, nickname);
      var _ := db.Save(db.members[actor.value].study, actorId, message.audience,
                       message.title, message.description, now);
      r := Ok(());
    }

    method AddAssignmentNotification(study: StudyId, actorId: UserId, assignmentTitle: string, now: Timestamp)
      returns (r: Result<()>)
      requires db.Valid()
      modifies db
      ensures db.Valid()
      ensures Step(r, db.View()) == Add(old(db.View()), Assignment(assignmentTitle), study, actorId, now)
    {
      r := Publish(Assignment(assignmentTitle), study, actorId, now);
    }

    method AddAnnouncementNotification(study: StudyId, actorId: UserId, announcementTitle: string, now: Timestamp)
      returns (r: Result<()>)
      requires db.Valid()
      modifies db
      ensures db.Valid()
      ensures Step(r, db.View()) == Add(old(db.View()), Announcement(announcementTitle), study, actorId, now)
    {
      r := Publish(Announcement(announcementTitle), study, actorId, now);
    }

    method AddNewMemberNotification(study: StudyId, actorId: UserId, now: Timestamp) returns (r: Result<()>)
      requires db.Valid()
      modifies db
      ensures db.Valid()
      ensures Step(r, db.View()) == Add(old(db.View()), NewMember, study, actorId, now)
    {
      r := Publish(NewMember, study, actorId, now);
    }

    method AddOutMemberNotification(study: StudyId, actorId: UserId, now: Timestamp) returns (r: Result<()>)
      requires db.Valid()
      modifies db
      ensures db.Valid()
      ensures Step(r, db.View()) == Add(old(db.View()), OutMember, study, actorId, now)
    {
      r := Publish(OutMember, study, actorId, now);
    }

    method AddNewApplicationNotification(study: StudyId, actorId: UserId, now: Timestamp) returns (r: Result<()>)
      requires db.Valid()
      modifies db
      ensures db.Valid()
      ensures Step(r, db.View()) == Add(old(db.View()), NewApplication, study, actorId, now)
    {
      r := Publish(NewApplication, study, actorId, now);
    }
  }
}
