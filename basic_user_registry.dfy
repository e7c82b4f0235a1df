/**
 * The user registry of the models package: registered users, their
 * sessions, which sockets they are connected on, who is online, and the
 * failed-login counters. It is the ChatServer1 registry without the
 * offline-mailbox bookkeeping and without session cleanup or forced
 * disconnects.
 *
 * The password hash is a function fixed when the registry is built; each
 * fresh session id is a parameter of the operation that draws it. The
 * clock is the parameter `now`.
 */
module BasicUserRegistry {
  import opened Text
  import opened Optional
  import opened Accounts

  /** The fields of one `User` object. */
  datatype UserState = UserState(
    username: string, passwordHash: string, sessionId: string,
    createdAt: real, lastActive: real, isOnline: bool, socketId: Option<string>,
    messageCount: nat, joinTime: Option<real>)

  /** A user as `User(...)` creates them at time `now`. */
  function NewUser(username: string, passwordHash: string, sessionId: string, now: real): (st: UserState)
    ensures st.username == username && st.passwordHash == passwordHash && st.sessionId == sessionId
    ensures !st.isOnline && st.socketId.None? && st.joinTime.None? && st.messageCount == 0
  {
    UserState(username, passwordHash, sessionId, now, now, false, None, 0, None)
  }

  class User {
    const username: string
    const passwordHash: string
    var sessionId: string
    const createdAt: real
    var lastActive: real
    var isOnline: bool
    var socketId: Option<string>
    var messageCount: nat
    var joinTime: Option<real>

    function State(): UserState
      reads this
    {
      UserState(username, passwordHash, sessionId, createdAt, lastActive, isOnline, socketId,
                messageCount, joinTime)
    }

    constructor (username: string, passwordHash: string, sessionId: string, now: real)
      ensures State() == NewUser(username, passwordHash, sessionId, now)
    {
      this.username := username;
      this.passwordHash := passwordHash;
      this.sessionId := sessionId;
      createdAt := now;
      lastActive := now;
      isOnline := false;
      socketId := None;
      messageCount := 0;
      joinTime := None;
    }

    /** The field updates of set_user_online. */
    method GoOnline(socket: string, now: real)
      modifies this
      ensures State() == old(State()).(isOnline := true, socketId := Some(socket), joinTime := Some(now),
                                       lastActive := now)
    {
      isOnline := true;
      socketId := Some(socket);
      joinTime := Some(now);
      lastActive := now;
    }

    /** The field updates of set_user_offline. */
    method GoOffline()
      modifies this
      ensures State() == old(State()).(isOnline := false, socketId := None)
    {
      isOnline := false;
      socketId := None;
    }

    method StartSession(id: string)
      modifies this
      ensures State() == old(State()).(sessionId := id)
    {
      sessionId := id;
    }
  }

  datatype UserStats = UserStats(totalRegistered: nat, currentlyOnline: nat, totalFailedLogins: nat,
                                 onlineUsers: set<string>)

  class UserManager {
    const hashPassword: string -> string
    var users: map<string, User>
    /** session id -> user name */
    var sessions: map<string, string>
    var onlineUsers: set<string>
    /** socket id -> user name */
    var socketToUser: map<string, string>
    var failedLoginAttempts: Counters

    /** The user registered under `name`, if any: what an operation on that name may change. */
    function Named(name: string): set<User>
      reads this
    {
      if name in users then {users[name]} else {}
    }

    /** The user `socket` maps to, if any. */
    function Owner(socket: string): set<User>
      reads this
    {
      if socket in socketToUser && socketToUser[socket] in users then {users[socketToUser[socket]]} else {}
    }

    /** Whoever the socket of the user `name` maps to, when that user has a non-empty socket. */
    function SocketOwner(name: string): set<User>
      reads this, users.Values
    {
      if name in users && Truthy(users[name].socketId) then Owner(users[name].socketId.value) else {}
    }

    ghost predicate Valid()
      reads this, users.Values
    {
      (forall u :: u in users ==>
         users[u].username == u && MinNameLength <= |u| <= MaxNameLength &&
         (users[u].isOnline <==> users[u].socketId.Some?)) &&
      CaseDistinct(users.Keys) &&
      (forall u :: u in onlineUsers <==> u in users && users[u].isOnline) &&
      (forall s :: s in sessions ==> sessions[s] in users) &&
      (forall s :: s in socketToUser ==> socketToUser[s] in users) &&
      WellFormed(failedLoginAttempts)
    }

    constructor (hashPassword: string -> string)
      ensures Valid() && this.hashPassword == hashPassword
      ensures users == map[] && sessions == map[] && onlineUsers == {} && socketToUser == map[]
      ensures failedLoginAttempts == EmptyCounters()
    {
      this.hashPassword := hashPassword;
      users := map[];
      sessions := map[];
      onlineUsers := {};
      socketToUser := map[];
      failedLoginAttempts := EmptyCounters();
    }

    /**
     * set_user_offline's effect on the registry, from the socket's owner
     * in the earlier state: an unknown socket (or one mapped to an empty
     * name) changes nothing; otherwise that user goes offline and the
     * socket's entry is removed.
     */
    twostate predicate WentOffline(socket: string)
      reads this, users.Values
    {
      users == old(users) &&
      if socket in old(socketToUser) && old(socketToUser)[socket] != [] && old(socketToUser)[socket] in old(users) then
        var name := old(socketToUser)[socket];
        users[name].State() == old(users[name].State()).(isOnline := false, socketId := None) &&
        onlineUsers == old(onlineUsers) - {name} && socketToUser == old(socketToUser) - {socket}
      else
        onlineUsers == old(onlineUsers) && socketToUser == old(socketToUser)
    }

    /**
     * register_user: the name is stripped, then checked; an accepted name
     * gets a new offline user and its first session.
     */
    method RegisterUser(username: string, password: string, sessionId: string, now: real) returns (r: RegisterResult)
      requires Valid()
      modifies this
      ensures Valid()
      ensures onlineUsers == old(onlineUsers) && socketToUser == old(socketToUser)
      ensures failedLoginAttempts == old(failedLoginAttempts)
      ensures var name := Strip(username);
              var check := RegistrationCheck(name, password, old(users).Keys);
              if check.Some? then
                r == Refused(check.value) && users == old(users) && sessions == old(sessions)
              else
                r == Registered(name, sessionId) && name !in old(users) && name in users && fresh(users[name]) &&
                users == old(users)[name := users[name]] &&
                users[name].State() == NewUser(name, hashPassword(password), sessionId, now) &&
                sessions == old(sessions)[sessionId := name]
    {
      var name := Strip(username);
      var check := RegistrationCheck(name, password, users.Keys);
      if check.Some? {
        return Refused(check.value);
      }
      AcceptedKeepsCaseDistinct(name, password, users.Keys);
      AddUser(name, hashPassword(password), sessionId, now);
      r := Registered(name, sessionId);
    }

    /** The accepted branch of register_user: a new offline user and its first session. */
    method AddUser(name: string, passwordHash: string, sessionId: string, now: real)
      requires Valid() && MinNameLength <= |name| <= MaxNameLength
      requires name !in users && CaseDistinct(users.Keys + {name})
      modifies this
      ensures Valid()
      ensures name in users && fresh(users[name]) && users == old(users)[name := users[name]]
      ensures users[name].State() == NewUser(name, passwordHash, sessionId, now)
      ensures sessions == old(sessions)[sessionId := name]
      ensures onlineUsers == old(onlineUsers) && socketToUser == old(socketToUser)
      ensures failedLoginAttempts == old(failedLoginAttempts)
    {
      var user := new User(name, passwordHash, sessionId, now);
      users := users[name := user];
      sessions := sessions[sessionId := name];
    }

    /**
     * login_user: an unknown name or a wrong password counts one more
     * failure for that name; a match starts a new session, keeping the
     * old ones, and resets the name's failures to 0.
     */
    method LoginUser(username: string, password: string, sessionId: string) returns (r: LoginResult)
      requires Valid()
      modifies this, Named(username)
      ensures Valid()
      ensures users == old(users) && onlineUsers == old(onlineUsers) && socketToUser == old(socketToUser)
      ensures if username in old(users) && old(users[username].passwordHash) == hashPassword(password) then
                r == LoggedIn(username, sessionId) &&
                sessions == old(sessions)[sessionId := username] &&
                users[username].State() == old(users[username].State()).(sessionId := sessionId) &&
                failedLoginAttempts == Put(old(failedLoginAttempts), username, 0)
              else
                r == InvalidCredentials && sessions == old(sessions) && unchanged(Named(username)) &&
                failedLoginAttempts == Bump(old(failedLoginAttempts), username)
    {
      if username !in users {
        failedLoginAttempts := Bump(failedLoginAttempts, username);
        return InvalidCredentials;
      }
      var user := users[username];
      if user.passwordHash != hashPassword(password) {
        failedLoginAttempts := Bump(failedLoginAttempts, username);
        return InvalidCredentials;
      }
      OpenSession(username, sessionId);
      r := LoggedIn(username, sessionId);
    }

    /** The successful branch of login_user: a new session for the user, whose failure count restarts at 0. */
    method OpenSession(username: string, sessionId: string)
      requires Valid() && username in users
      modifies this, users[username]
      ensures Valid()
      ensures users == old(users) && onlineUsers == old(onlineUsers) && socketToUser == old(socketToUser)
      ensures sessions == old(sessions)[sessionId := username]
      ensures users[username].State() == old(users[username].State()).(sessionId := sessionId)
      ensures failedLoginAttempts == Put(old(failedLoginAttempts), username, 0)
    {
      users[username].StartSession(sessionId);
      sessions := sessions[sessionId := username];
      failedLoginAttempts := Put(failedLoginAttempts, username, 0);
    }

    /** is_username_available: `Available` on the registered names. */
    function IsUsernameAvailable(username: string): (r: bool)
      reads this
      ensures r == Available(username, users.Keys)
    {
      Available(username, users.Keys)
    }

    /**
     * set_user_online: an unknown name changes nothing. A known user goes
     * online on the socket, and the socket now maps to them; a previous
     * socket of theirs keeps its entry.
     */
    method SetUserOnline(username: string, socket: string, now: real) returns (ok: bool)
      requires Valid()
      modifies this, Named(username)
      ensures Valid()
      ensures ok == (username in old(users))
      ensures users == old(users) && sessions == old(sessions) && failedLoginAttempts == old(failedLoginAttempts)
      ensures ok ==>
                users[username].State() == old(users[username].State()).(
                  isOnline := true, socketId := Some(socket), joinTime := Some(now), lastActive := now) &&
                onlineUsers == old(onlineUsers) + {username} &&
                socketToUser == old(socketToUser)[socket := username]
      ensures !ok ==> onlineUsers == old(onlineUsers) && socketToUser == old(socketToUser)
    {
      if username !in users {
        return false;
      }
      var user := users[username];
      user.GoOnline(socket, now);
      onlineUsers := onlineUsers + {username};
      socketToUser := socketToUser[socket := username];
      ok := true;
    }

    /**
     * set_user_offline: the socket's user goes offline, the socket's entry
     * is removed, and the name is returned; an unknown socket gives None.
     */
    method SetUserOffline(socket: string) returns (gone: Option<string>)
      requires Valid()
      modifies this, Owner(socket)
      ensures Valid()
      ensures sessions == old(sessions) && failedLoginAttempts == old(failedLoginAttempts)
      ensures gone == if socket in old(socketToUser) then Some(old(socketToUser)[socket]) else None
      ensures WentOffline(socket)
    {
      if socket !in socketToUser || socketToUser[socket] == [] {
        return None;
      }
      var name := socketToUser[socket];
      var user := users[name];
      user.GoOffline();
      onlineUsers := onlineUsers - {name};
      socketToUser := socketToUser - {socket};
      gone := Some(name);
    }

    /**
     * logout_user: an unknown session gives false. Otherwise the session is
     * deleted, and if its user has a socket, whoever that socket now maps
     * to goes offline.
     */
    method LogoutUser(sessionId: string) returns (ok: bool)
      requires Valid()
      modifies this, if sessionId in sessions then SocketOwner(sessions[sessionId]) else {}
      ensures Valid()
      ensures ok == (sessionId in old(sessions))
      ensures users == old(users) && failedLoginAttempts == old(failedLoginAttempts)
      ensures !ok ==> sessions == old(sessions) && onlineUsers == old(onlineUsers) && socketToUser == old(socketToUser)
      ensures ok ==> sessions == old(sessions) - {sessionId}
      ensures ok ==> var socket := old(users[sessions[sessionId]].socketId);
                     if Truthy(socket) then WentOffline(socket.value)
                     else onlineUsers == old(onlineUsers) && socketToUser == old(socketToUser)
    {
      if sessionId !in sessions || sessions[sessionId] == [] {
        return false;
      }
      var name := sessions[sessionId];
      sessions := sessions - {sessionId};
      var user := users[name];
      if Truthy(user.socketId) {
        var _ := SetUserOffline(user.socketId.value);
      }
      ok := true;
    }

    /** get_user_stats: the registry's sizes, and the failure total adds up every counter. */
    function GetUserStats(): (stats: UserStats)
      requires Valid()
      reads this, users.Values
      ensures stats.totalRegistered == |users| && stats.currentlyOnline == |onlineUsers|
      ensures stats.onlineUsers == onlineUsers && stats.currentlyOnline <= stats.totalRegistered
      ensures stats.totalFailedLogins == Total(failedLoginAttempts)
    {
      assert onlineUsers <= users.Keys;
      OfflineCount(users.Keys, onlineUsers, users.Keys - onlineUsers);
      UserStats(|users|, |onlineUsers|, Total(failedLoginAttempts), onlineUsers)
    }
  }
}
