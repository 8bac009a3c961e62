/**
 * The official's desk (Controllers/OfficialController.cs): the inbox of
 * applications still in progress, and `Process`, which moves an application
 * to whatever status the official chooses.
 */
module Official {
  import opened Wrappers
  import opened Calendar
  import opened Linq
  import opened Entities
  import opened Store

  /** An application is in progress unless it is a draft or has been completed or rejected. */
  predicate InProgress(a: Application) {
    a.status != Draft && a.status != Completed && a.status != Rejected
  }

  /** `Inbox`: every application in progress, as often as it occurs, nothing else, newest first. */
  function Inbox(apps: seq<Application>): (q: seq<Application>)
    ensures forall a :: multiset(q)[a] == if InProgress(a) then multiset(apps)[a] else 0
    ensures SortedDescending(q, (a: Application) => a.createdDate)
  {
    WhereOrderedDescending(apps, InProgress, (a: Application) => a.createdDate)
  }

  /**
   * `Process`: an unknown id changes nothing; otherwise, whatever the current
   * status, the application takes `nextStatus`, the time and the acting
   * official, and one entry with the official's note is logged, which becomes
   * the application's latest logged status.
   */
  method Process(db: Db, id: int, nextStatus: ApplicationStatus, note: string, actor: Option<string>, now: DateTime)
    returns (found: bool)
    requires db.Valid()
    modifies db`applications, db`histories
    ensures db.Valid()
    ensures found <==> old(FindApplication(db.applications, id)).Some?
    ensures !found ==> db.applications == old(db.applications) && db.histories == old(db.histories)
    ensures found ==>
      var a := old(db.applications)[id - 1];
      && db.applications == old(db.applications)[id - 1 :=
           a.(status := nextStatus, lastModifiedDate := Some(now), currentOfficialId := actor)]
      && db.histories == old(db.histories)
           + [ApplicationHistory(|old(db.histories)| + 1, id, now, nextStatus, note, actor.GetOr(""))]
    ensures found ==> LastLoggedStatus(db.histories, id) == Some(nextStatus)
  {
    FindApplicationAt(db.applications, id);
    found := FindApplication(db.applications, id).Some?;
    if found {
      var a := db.applications[id - 1];
      db.SaveTransition(id - 1, a.(status := nextStatus, lastModifiedDate := Some(now), currentOfficialId := actor),
                        DefaultHistory(now).(applicationId := id, status := nextStatus,
                                             note := note, changedById := actor.GetOr("")));
      LastLoggedAppend(old(db.histories), db.histories[|db.histories| - 1], id);
    }
  }
}
