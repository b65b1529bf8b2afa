/** app/api/users/stats/notifications/route.ts: the first notifications. */
module NotificationsRoute {
  import opened MockData
  import opened Http

  const PageSize := 10

  /** `GET`: `notifications.slice(0, 10)`: the first ten in stored order, or all when fewer. */
  function Get(s: State): (r: Response)
    reads s
    ensures r.status == 200 && r.cookies == [] && r.body.NotificationsBody?
    ensures |r.body.items| == if |s.notifications| < PageSize then |s.notifications| else PageSize
    ensures r.body.items <= s.notifications
    ensures |s.notifications| <= PageSize ==> r.body.items == s.notifications
  {
    Json(NotificationsBody(if |s.notifications| <= PageSize then s.notifications else s.notifications[..PageSize]))
  }
}
