/** What a request says about its caller. */
module Identity {
  import opened Prelude

  datatype UserIdentity = UserIdentity(userId: string, email: Option<string>, groups: seq<string>)

  datatype RequestContext = RequestContext(
    correlationId: string,
    traceId: Option<string>,
    identity: Option<UserIdentity>,
    rawToken: Option<string>)
}
