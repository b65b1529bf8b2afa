/** What a route handler returns: a status, a JSON body and the cookies it sets. */
module Http {
  import opened Wrappers
  import opened MockData

  /** A `Set-Cookie` as name and value (path, httpOnly and sameSite are not modelled). */
  datatype Cookie = Cookie(name: string, value: string)

  /** The JSON bodies the handlers send. */
  datatype Body =
    | Message(message: string)                  // { message }
    | UserBody(user: UserRec)                   // a User
    | OtpIssued(otp: string)                    // { ok: true, otp }
    | OkBody                                    // { ok: true }
    | IdBody(id: string)                        // { id }
    | KycStatusBody(status: KycStatus)          // { status }
    | GroupBody(group: Option<GroupRec>)        // a Group, or null
    | MembersBody(members: seq<UserRec>)        // { members }
    | NotificationsBody(items: seq<Notification>) // an array of notifications

  datatype Response = Response(status: nat, body: Body, cookies: seq<Cookie>)

  /** `NextResponse.json(body)`: status 200, no cookies. */
  function Json(body: Body): Response {
    Response(200, body, [])
  }

  /** `NextResponse.json({ message }, { status })`. */
  function Error(status: nat, message: string): Response {
    Response(status, Message(message), [])
  }
}
