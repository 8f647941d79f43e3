/**
 * The values shared by the study-group services: identifiers, the
 * membership and notification records, the error codes a service call can
 * end with, and the response records the services hand back.
 */
module Domain {

  /** Database identifiers (Java `Long`, never negative here). */
  type StudyId = nat
  type UserId = nat
  type NotificationId = nat

  /** An opaque point in time (`createdAt`), supplied by the caller. */
  type Timestamp = int

  datatype Option<T> = None | Some(value: T)

  /**
   * The error codes a call can fail with. The first three are the codes
   * the two services throw themselves; the last two stand for exceptions
   * raised by collaborators whose code is not part of this model
   * (`GroupService.memberValidation`, `UserService.getMyProfile`).
   */
  datatype Error =
    | InvalidParameter        // CommonErrorCode.INVALID_PARAMETER
    | InvalidRequest          // CommonErrorCode.INVALID_REQUEST
    | UrlForbidden            // UserErrorCode.URL_FORBIDDEN
    | MemberValidationFailed  // whatever memberValidation throws
    | ProfileNotFound         // whatever getMyProfile throws

  datatype Result<T> = Ok(value: T) | Err(error: Error)

  datatype Role = Leader | Member

  /** The role's enum constant name, as `StudyRole.name()` gives it. */
  function RoleName(role: Role): (name: string)
    ensures name == "LEADER" <==> role == Leader
    ensures name == "MEMBER" <==> role == Member
  {
    match role
    case Leader => "LEADER"
    case Member => "MEMBER"
  }

  datatype Status = Joined | Left | Banned

  /** One row of the membership table, keyed by (study, user). */
  datatype StudyMember = StudyMember(study: StudyId, user: UserId, role: Role, status: Status)

  datatype UserProfile = UserProfile(nickname: string)

  datatype Audience = AllMembers | LeaderOnly

  /**
   * One stored notification. `actor` is the user of the membership row
   * (study, actor) that caused it.
   */
  datatype Notification = Notification(
    id: NotificationId,
    study: StudyId,
    actor: UserId,
    audience: Audience,
    title: string,
    description: string,
    createdAt: Timestamp)

  /** An entry of the notification list (GetNotificationsListResponse). */
  datatype NotificationEntry = NotificationEntry(id: NotificationId, title: string, audience: Audience)

  /** The detail view of one notification (GetNotificationDetailResponse). */
  datatype NotificationDetail = NotificationDetail(title: string, description: string, createdAt: Timestamp)

  /** One entry of the member list (StudyMemberDto, without image and last login). */
  datatype MemberEntry = MemberEntry(userId: UserId, nickname: string, role: string)

  /** The member list of a study (GetStudyMembersResponse). */
  datatype MembersResponse = MembersResponse(studyId: StudyId, members: seq<MemberEntry>)
}
