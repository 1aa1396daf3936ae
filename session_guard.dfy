/** `authenticateCompanySession`: the middleware that lets a request through
    only when the session's company is the company named in the path. It
    reads the session and the path parameter and writes nothing: in
    particular it does not set `req.companyID`. */
module CompanySessionGuard {
  import opened Common
  import opened Http

  const NotLoggedInMessage: string := "Unauthorized: Please log in as a company"
  const OtherCompanyMessage: string := "Unauthorized: You can only access your own company users"

  /** The guard's decision for session company `sessionCompany` (absent when
      no company is logged in) and path parameter `pathCompany`. */
  function Authorize(sessionCompany: Option<Id>, pathCompany: Id): (g: Gate)
    // `next()` exactly when a company is logged in and it is the path's company
    ensures g.Next? <==> Truthy(sessionCompany) && sessionCompany.value == pathCompany
    // a missing (falsy) session always gets the log-in message, never the mismatch one
    ensures !Truthy(sessionCompany) ==> g == Halt(Response(403, ErrorBody(NotLoggedInMessage)))
    ensures Truthy(sessionCompany) && sessionCompany.value != pathCompany ==>
      g == Halt(Response(403, ErrorBody(OtherCompanyMessage)))
    ensures g.Halt? ==> g.response.status == 403
  {
    if !Truthy(sessionCompany) then Halt(Response(403, ErrorBody(NotLoggedInMessage)))
    else if sessionCompany.value != pathCompany then Halt(Response(403, ErrorBody(OtherCompanyMessage)))
    else Next
  }
}
