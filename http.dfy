/** The request record the middleware chain reads and writes, and what a handler sends. */
module Http {
  import opened Base
  import opened WorkspaceModel

  /** A status code with the JSON `{ message }` body the middleware and handlers send. */
  datatype Reply = Reply(status: nat, message: string)

  /** What a handler sends back: a JSON body, an error reply, or nothing because an
      exception escaped the handler (Mongoose validation errors are not caught). */
  datatype Response<T> = Json(status: nat, body: T) | Fail(reply: Reply) | Unhandled

  /** The parts of `req` the guards use: the Authorization header, the `:workspaceId`
      path parameter, and the fields the guards attach (`req.user`/`req.userId`,
      `req.workspace`, `req.workspaceRole`). */
  datatype Ctx = Ctx(
    authorization: Option<string>,
    workspaceParam: Id,
    user: Option<Id>,
    workspace: Option<Workspace>,
    role: Option<Role>)

  /** A request as it arrives, before any guard has run. */
  function Incoming(authorization: Option<string>, workspaceParam: Id): Ctx {
    Ctx(authorization, workspaceParam, None, None, None)
  }

  /** A guard either calls `next()` with the (possibly updated) request or answers. */
  datatype Step = Pass(ctx: Ctx) | Halt(reply: Reply)

  /** The Express request object, whose fields the middleware assigns in place. */
  class Request {
    var authorization: Option<string>
    const workspaceParam: Id
    var user: Option<Id>
    var workspace: Option<Workspace>
    var workspaceRole: Option<Role>

    constructor (authorization: Option<string>, workspaceParam: Id)
      ensures Snapshot() == Incoming(authorization, workspaceParam)
    {
      this.authorization := authorization;
      this.workspaceParam := workspaceParam;
      user, workspace, workspaceRole := None, None, None;
    }

    function Snapshot(): Ctx
      reads this
    {
      Ctx(authorization, workspaceParam, user, workspace, workspaceRole)
    }
  }
}
