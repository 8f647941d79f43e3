# Study membership and notifications, modelled in Dafny

This project models two services of a study-group web backend.

- **StudyMemberService** manages a study's membership lifecycle. `getMembers` lists the JOINED members. `leaveStudy` moves a JOINED non-leader to LEFT. `expelMember` lets the study's leader move another JOINED member to BANNED. Both state changes also post a member-left notification.
- **NotificationService** builds in-app notifications and reads them back. The five `add…Notification` operations each check the actor's membership row, compose a fixed title and description, pick an audience and save one record. `getNotifications` and `getNotificationDetail` are lookups.

The persistence layer is the class `Store.Database`. It holds the membership table (a `seq` of rows keyed by study and user), the user profiles (a `map`), the set of existing studies and the append-only notification log. `Store.WellFormed` is the consistency that the single-result repository queries rely on:

- one row per (study, user);
- at most one leader row per study;
- foreign keys point at existing studies;
- notification ids are increasing and below the next id to be issued.

Each state-changing service call is a pure step function on a `Tables` snapshot: `Notifications.Add`, `StudyMembers.Leave` and `StudyMembers.Expel`. Their contracts give the order of the checks, the error code of each branch, "a failure changes nothing" and the exact new state. The service methods perform the same call on the `Database` step by step and are proved equal to the step function. The lemmas follow the tables through any sequence of calls (`StudyMembers.Run`). The read operations are functions of the tables.

Files: `domain.dfy` (values, error codes, response records), `store.dfy` (tables, repository queries, `Database`), `notifications.dfy` (NotificationService), `study_members.dfy` (StudyMemberService).

## Model

| member | source | states |
|---|---|---|
| Domain.RoleName | backend/src/main/java/com/study/focus/study/service/StudyMemberService.java:53 | the role name is "LEADER" exactly for a leader and "MEMBER" exactly for a member |
| Store.FindMember | backend/src/main/java/com/study/focus/notification/service/NotificationService.java:54 | finds the row with the given study and user, whatever its status; none means no such row exists |
| Store.FindJoined | backend/src/main/java/com/study/focus/study/service/StudyMemberService.java:65 | finds a JOINED row of the given study and user; none means no such row exists |
| Store.FindLeader | backend/src/main/java/com/study/focus/study/service/StudyMemberService.java:83 | finds a LEADER row of the study, whatever its status; none means the study has no leader row |
| Store.FindNotification | backend/src/main/java/com/study/focus/notification/service/NotificationService.java:47 | finds a stored notification with the id; none means no record carries it |
| Store.JoinedOf | backend/src/main/java/com/study/focus/study/service/StudyMemberService.java:40-41 | holds exactly the rows of the study whose status is JOINED, in table order |
| Store.JoinedOfAppend | backend/src/main/java/com/study/focus/study/service/StudyMemberService.java:40-41 | appending a row adds it to the end of the study's joined list when it is a JOINED row of that study, and adds nothing otherwise; with the length bound this fixes the list's table order and that each row appears once |
| Store.NotificationsOf | backend/src/main/java/com/study/focus/notification/service/NotificationService.java:38 | holds exactly the stored notifications of the study, in log order |
| Store.NotificationsOfAppend | backend/src/main/java/com/study/focus/notification/service/NotificationService.java:38 | appending a record adds it to the end of its own study's notifications and to no other study's |
| Store.Database.UpdateStatus | backend/src/main/java/com/study/focus/study/service/StudyMemberService.java:77 | `updateStatus` changes the status of one row and nothing else, and keeps the tables consistent |
| Store.Database.Save | backend/src/main/java/com/study/focus/notification/service/NotificationService.java:61 | `save` appends exactly one record under the next id and keeps the tables consistent |
| Notifications.Add | backend/src/main/java/com/study/focus/notification/service/NotificationService.java:53-123 | an add call succeeds iff the actor has a row in the study and, for new-member and out-member, a profile; a failure is INVALID_REQUEST and changes nothing; a success appends one record for that study and actor under a fresh id and changes no other table |
| Notifications.MessageOfEachKind | backend/src/main/java/com/study/focus/notification/service/NotificationService.java:55-120 | the record's title and description per kind are the fixed phrases around the given title or nickname; new-member and out-member descriptions start with the nickname; the audience is LEADER_ONLY exactly for a new application |
| Notifications.AddKeepsWellFormed | backend/src/main/java/com/study/focus/notification/service/NotificationService.java:58-61 | an add call keeps the tables consistent |
| Notifications.Project | backend/src/main/java/com/study/focus/notification/service/NotificationService.java:39 | the projection has one entry per stored notification, in order, and entry i carries notification i's id, title and audience |
| Notifications.GetNotifications | backend/src/main/java/com/study/focus/notification/service/NotificationService.java:35-40 | fails first on the membership check, then with INVALID_REQUEST for a missing study; otherwise returns the study's stored list projected one to one, same length and order |
| Notifications.AddExtendsList | backend/src/main/java/com/study/focus/notification/service/NotificationService.java:38-39 | after a successful add, that study's list, taken in log order, gains exactly the new entry at its end, and every other study's list is unchanged |
| Notifications.GetNotificationDetail | backend/src/main/java/com/study/focus/notification/service/NotificationService.java:44-49 | fails first on the membership check, then with INVALID_REQUEST for a missing study or id; otherwise returns the title, description and creation time of a record with that id |
| Notifications.DetailIsOfThatRecord | backend/src/main/java/com/study/focus/notification/service/NotificationService.java:47-48 | in consistent tables ids are unique, so the detail is that of the one record with the id |
| Notifications.DetailCrossesStudies | backend/src/main/java/com/study/focus/notification/service/NotificationService.java:44-48 | user 5, a joined member of study 1 only, gets the detail of a notification of study 2 |
| Notifications.GetStudyNotificationDetail | backend/src/main/java/com/study/focus/notification/service/NotificationService.java:44-48 | the detail lookup scoped to the requested study: a success is always a record of that study |
| Notifications.ScopedDetailIsOwnStudy | backend/src/main/java/com/study/focus/notification/service/NotificationService.java:44-48 | the scoped lookup agrees with the as-written one on the study's own notifications and refuses any other study's with INVALID_REQUEST |
| Notifications.NotificationService.AddAssignmentNotification | backend/src/main/java/com/study/focus/notification/service/NotificationService.java:53-62 | performs `Add` for an assignment on the database, keeping it consistent |
| Notifications.NotificationService.AddAnnouncementNotification | backend/src/main/java/com/study/focus/notification/service/NotificationService.java:66-75 | performs `Add` for an announcement on the database, keeping it consistent |
| Notifications.NotificationService.AddNewMemberNotification | backend/src/main/java/com/study/focus/notification/service/NotificationService.java:79-91 | performs `Add` for a new member on the database, keeping it consistent |
| Notifications.NotificationService.AddOutMemberNotification | backend/src/main/java/com/study/focus/notification/service/NotificationService.java:95-108 | performs `Add` for a departed member on the database, keeping it consistent |
| Notifications.NotificationService.AddNewApplicationNotification | backend/src/main/java/com/study/focus/notification/service/NotificationService.java:112-123 | performs `Add` for a new application on the database, keeping it consistent |
| StudyMembers.Leave | backend/src/main/java/com/study/focus/study/service/StudyMemberService.java:63-78 | no JOINED row gives INVALID_PARAMETER; a leader gives INVALID_REQUEST; a missing profile gives INVALID_REQUEST; every failure changes nothing; a success sets only the requester's row to LEFT and appends exactly one out-member notification for the study |
| StudyMembers.Expel | backend/src/main/java/com/study/focus/study/service/StudyMemberService.java:81-102 | no leader row gives INVALID_REQUEST; a non-leader requester gives URL_FORBIDDEN; self-expulsion gives INVALID_REQUEST; a target without a JOINED row gives INVALID_PARAMETER, in that order, then a missing profile gives INVALID_REQUEST (the only error left once the earlier checks pass); every failure changes nothing; a success sets only the target's row to BANNED and appends exactly one out-member notification for the study |
| StudyMembers.ExpelSparesRequester | backend/src/main/java/com/study/focus/study/service/StudyMemberService.java:85-99 | a successful expulsion leaves the leader's own row untouched |
| StudyMembers.ApplyRetires | backend/src/main/java/com/study/focus/study/service/StudyMemberService.java:65-99 | one call changes only statuses, and only of JOINED rows |
| StudyMembers.RunRetires | backend/src/main/java/com/study/focus/study/service/StudyMemberService.java:65-99 | over any sequence of calls, rows only change status and only away from JOINED |
| StudyMembers.RunNeverRestores | backend/src/main/java/com/study/focus/study/service/StudyMemberService.java:65-95 | a LEFT or BANNED row is never changed again, by any sequence of calls |
| StudyMembers.SetStatusKeepsWellFormed | backend/src/main/java/com/study/focus/study/service/StudyMemberService.java:77 | a status update keeps the tables consistent |
| StudyMembers.ApplyKeepsWellFormed | backend/src/main/java/com/study/focus/study/service/StudyMemberService.java:63-102 | each call keeps the tables consistent |
| StudyMembers.RunKeepsWellFormed | backend/src/main/java/com/study/focus/study/service/StudyMemberService.java:63-102 | any sequence of calls keeps the tables consistent |
| StudyMembers.ApplySparesLeaders | backend/src/main/java/com/study/focus/study/service/StudyMemberService.java:69-92 | no call changes a leader row: a leader cannot leave and cannot be expelled |
| StudyMembers.RunSparesLeaders | backend/src/main/java/com/study/focus/study/service/StudyMemberService.java:69-92 | over any sequence of calls a leader row stays as it was, so a joined leader stays joined |
| StudyMembers.RetireDropsOne | backend/src/main/java/com/study/focus/study/service/StudyMemberService.java:40-41 | retiring one JOINED row of a study makes that study's joined list exactly one shorter |
| StudyMembers.LeaveDropsFromMembers | backend/src/main/java/com/study/focus/study/service/StudyMemberService.java:40-77 | after a successful leave the requester is no longer among the study's joined members, and the list is one shorter |
| StudyMembers.ExpelDropsFromMembers | backend/src/main/java/com/study/focus/study/service/StudyMemberService.java:40-99 | after a successful expulsion the target is no longer among the study's joined members, and the list is one shorter |
| StudyMembers.DroppedIsGone | backend/src/main/java/com/study/focus/study/service/StudyMemberService.java:40-41 | with one row per (study, user), a retired row's user has no other joined row in that study |
| StudyMembers.StudyMemberService.GetMembers | backend/src/main/java/com/study/focus/study/service/StudyMemberService.java:35-58 | fails first on the membership check; otherwise succeeds iff every JOINED member of the study has a profile; returns one entry per JOINED member, in table order, with that member's user id, nickname and role name |
| StudyMembers.StudyMemberService.LeaveStudy | backend/src/main/java/com/study/focus/study/service/StudyMemberService.java:63-78 | performs `Leave` on the database, keeping it consistent |
| StudyMembers.StudyMemberService.ExpelMember | backend/src/main/java/com/study/focus/study/service/StudyMemberService.java:81-102 | performs `Expel` on the database, keeping it consistent; the status change is undone when the notification fails |

## Findings

| source | as written | input that shows it | evidently intended | confidence | as-written member | corrected member |
|---|---|---|---|---|---|---|
| backend/src/main/java/com/study/focus/notification/service/NotificationService.java:44-48 | looks the notification up by id alone; the study it loads is never compared with the notification's study | studies 1 and 2; notification 0 belongs to study 2; `getNotificationDetail(1, 0, u)` with a passing membership check returns study 2's notification | a notification of another study is refused like a missing one, with INVALID_REQUEST | medium, not executed | Notifications.DetailCrossesStudies | Notifications.GetStudyNotificationDetail |

`Notifications.GetNotificationDetail` keeps the behaviour as written. No other part of the model reads notification details.

## Left out

- Spring wiring, `@Service` and Lombok constructors: these are framework plumbing. The service objects are built by their Dafny constructors over one shared `Database`.
- Transactions: every call is atomic here. A failing out-member notification inside `leaveStudy` or `expelMember` leaves all tables as they were.
- StudyMembers.StudyMemberService.ExpelMember: `expelMember` carries no `@Transactional`, and it updates the status before it saves the notification. The model assumes the persistence context discards the BANNED status when the notification fails, and undoes that change explicitly.
- `GroupService.memberValidation`: its code is not part of this model. Its outcome is the `memberValid` parameter, and its exception is the error `MemberValidationFailed`.
- `UserService.getMyProfile` and `UserProfileRepository.findByUser`: both are lookups in the profile map. The exception `getMyProfile` throws for a missing profile is not visible; the model calls it `ProfileNotFound`.
- Ordering of `findAllByStudyOrderByCreatedAtDescIdDesc`: the program lists a study's notifications newest first, by `createdAt` and then by id, both descending. The model lists them in log order, oldest first, because `createdAt` comes from a caller-supplied `now` that need not grow along the log.
- Notifications.AddExtendsList: in the program a new notification has the latest `createdAt` and the largest id, so it heads its study's list. The lemma puts it at the end, because it is stated over the model's log order.
- Timestamps: `createdAt` comes from a `now` parameter. `lastLoginAt` and `profileImageUrl` are left out of the member entries, and so are the DTO builders.
- Notification ids come from a counter in the database. The real database's id generation is left out.
- Entity identity: membership rows are values updated by index, and a notification records the actor's user id in place of the membership entity. The query "at most one result" failure (more than one row matching a single-result query) is excluded by `Store.WellFormed` rather than modelled.
- Study member statuses other than JOINED, LEFT and BANNED: the enum is not visible. The code treats every such status like LEFT or BANNED.
- Database isolation and concurrency: this code coordinates none.
