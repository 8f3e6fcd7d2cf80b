/** The socket server: the handshake check, the personal room joined on connection, and
    the `join-workspace` gate that admits a socket to a workspace's room. */
module Realtime {
  import opened Base
  import opened WorkspaceModel
  import opened Auth
  import opened WorkspaceAccess

  const TokenMissing: string := "Authentication token missing"
  const TokenInvalid: string := "Invalid or expired token"
  const JoinNotFound: string := "Workspace not found"
  const JoinDenied: string := "Access denied to workspace"
  const JoinFailed: string := "Failed to join workspace"

  /** The handshake middleware's decision: accept, recording the decoded user id (which
      the payload may lack), or refuse the connection with an error. */
  datatype Handshake = Accepted(userId: Option<Id>) | Refused(message: string)

  /** Lines 24-38. Unlike `protect`, nothing checks that the user exists. */
  function Authorize(token: Option<string>, verify: Verifier): (h: Handshake)
    ensures h == Refused(TokenMissing) <==> !Truthy(token)
    ensures Truthy(token) ==> (h == Refused(TokenInvalid) <==> verify(token.value).None?)
    ensures h.Accepted? <==> Truthy(token) && verify(token.value).Some?
    ensures h.Accepted? ==> h.userId == verify(token.value).value.userId
  {
    if !Truthy(token) then Refused(TokenMissing)
    else match verify(token.value)
      case None => Refused(TokenInvalid)
      case Some(claims) => Accepted(claims.userId)
  }

  /** One `socket.emit(name, payload)` back to the client. */
  datatype Signal = Signal(name: string, payload: string)

  /** The parts of a socket the server touches. `listening` says whether the
      `join-workspace` handler was registered. */
  datatype SocketState = SocketState(userId: Option<Id>, rooms: set<string>, sent: seq<Signal>, listening: bool)

  /** Lines 40-43: join the personal room, then register the handlers. A payload without a
      user id makes `socket.userId.toString()` throw first, so nothing happens. */
  function ConnectStep(s: SocketState): (r: SocketState)
    ensures s.userId.Some? ==> r == s.(rooms := s.rooms + {s.userId.value}, listening := true)
    ensures s.userId.None? ==> r == s
  {
    if s.userId.None? then s else s.(rooms := s.rooms + {s.userId.value}, listening := true)
  }

  /** Lines 48-78: one `join-workspace` event. `dbOk` says whether the lookup succeeds. */
  function JoinStep(s: SocketState, workspaceId: Option<string>, workspaces: seq<Workspace>, dbOk: bool): SocketState {
    if !s.listening || !Truthy(workspaceId) then s
    else if !dbOk then s.(sent := s.sent + [Signal("join-error", JoinFailed)])
    else
      var found := FindWorkspace(workspaces, workspaceId.value);
      if found.None? then s.(sent := s.sent + [Signal("join-error", JoinNotFound)])
      else if s.userId.None? || !IsMember(found.value, s.userId.value) then
        s.(sent := s.sent + [Signal("join-error", JoinDenied)])
      else s.(rooms := s.rooms + {workspaceId.value}, sent := s.sent + [Signal("join-success", workspaceId.value)])
  }

  /** The step answered with join-success. */
  predicate Succeeded(s: SocketState, r: SocketState) {
    |r.sent| == |s.sent| + 1 && r.sent[|s.sent|].name == "join-success"
  }

  /** The outcomes of one `join-workspace` event: a falsy id does nothing; each failure sends
      its join-error and joins nothing; only a member of an existing workspace succeeds,
      and then the socket is in that workspace's room. */
  lemma JoinOutcomes(s: SocketState, workspaceId: Option<string>, workspaces: seq<Workspace>, dbOk: bool)
    ensures var r := JoinStep(s, workspaceId, workspaces, dbOk);
            && (!s.listening || !Truthy(workspaceId) ==> r == s)
            && (s.listening && Truthy(workspaceId) && !dbOk ==> r == s.(sent := s.sent + [Signal("join-error", JoinFailed)]))
            && (s.listening && Truthy(workspaceId) && dbOk && FindWorkspace(workspaces, workspaceId.value).None? ==>
                  r == s.(sent := s.sent + [Signal("join-error", JoinNotFound)]))
            && (!Succeeded(s, r) ==> r.rooms == s.rooms)
            && (Succeeded(s, r) ==>
                  && Truthy(workspaceId) && dbOk && s.userId.Some?
                  && r.rooms == s.rooms + {workspaceId.value}
                  && r.sent == s.sent + [Signal("join-success", workspaceId.value)]
                  && exists i :: 0 <= i < |workspaces| && workspaces[i].id == workspaceId.value
                                 && IsMember(workspaces[i], s.userId.value))
  {
    var r := JoinStep(s, workspaceId, workspaces, dbOk);
    if Succeeded(s, r) {
      assert s.listening && Truthy(workspaceId) && dbOk;
      var w := FindWorkspace(workspaces, workspaceId.value).value;
      var i :| 0 <= i < |workspaces| && workspaces[i] == w;
      assert workspaces[i].id == workspaceId.value && IsMember(workspaces[i], s.userId.value);
    }
  }

  /** Every room a socket is in is its personal room or the id of a workspace that listed
      its user among the members. `workspaces` only grows, so a membership once seen stays
      visible. */
  ghost predicate RoomsAuthorized(s: SocketState, workspaces: seq<Workspace>) {
    forall room :: room in s.rooms ==>
      (s.userId.Some? && room == s.userId.value)
      || (s.userId.Some? && exists i :: 0 <= i < |workspaces| && workspaces[i].id == room && IsMember(workspaces[i], s.userId.value))
  }

  /** Connecting and joining keep every room authorized. */
  lemma JoinKeepsRoomsAuthorized(s: SocketState, workspaceId: Option<string>, workspaces: seq<Workspace>, dbOk: bool)
    requires RoomsAuthorized(s, workspaces)
    ensures RoomsAuthorized(ConnectStep(s), workspaces)
    ensures RoomsAuthorized(JoinStep(s, workspaceId, workspaces, dbOk), workspaces)
  {
    JoinOutcomes(s, workspaceId, workspaces, dbOk);
  }

  /** A connected socket, after a successful handshake. */
  class Socket {
    var userId: Option<Id>
    var rooms: set<string>
    var sent: seq<Signal>
    var listening: bool

    constructor (h: Handshake)
      requires h.Accepted?
      ensures State() == SocketState(h.userId, {}, [], false)
    {
      userId, rooms, sent, listening := h.userId, {}, [], false;
    }

    function State(): SocketState
      reads this
    {
      SocketState(userId, rooms, sent, listening)
    }

    /** `io.on("connection")`. */
    method Connect()
      modifies this
      ensures State() == ConnectStep(old(State()))
    {
      if userId.None? {
        return;
      }
      rooms := rooms + {userId.value};
      listening := true;
    }

    /** The `join-workspace` handler. */
    method JoinWorkspace(workspaceId: Option<string>, workspaces: seq<Workspace>, dbOk: bool)
      modifies this
      ensures State() == JoinStep(old(State()), workspaceId, workspaces, dbOk)
    {
      if !listening || !Truthy(workspaceId) {
        return;
      }
      if !dbOk {
        sent := sent + [Signal("join-error", JoinFailed)];
        return;
      }
      var workspace := FindWorkspace(workspaces, workspaceId.value);
      if workspace.None? {
        sent := sent + [Signal("join-error", JoinNotFound)];
        return;
      }
      var isMember := userId.Some? && IsMember(workspace.value, userId.value);
      if !isMember {
        sent := sent + [Signal("join-error", JoinDenied)];
        return;
      }
      rooms := rooms + {workspaceId.value};
      sent := sent + [Signal("join-success", workspaceId.value)];
    }
  }
}
