/**
 * The user registry of the ChatServer1 server: registered users, their
 * sessions, which sockets they are connected on, who is online, and the
 * failed-login counters, with the bookkeeping the offline mailbox hooks
 * into (the time a user went offline, how many stored messages they
 * were handed on reconnect).
 *
 * The password hash is a function fixed when the registry is built; each
 * fresh session id is a parameter of the operation that draws it. The
 * clock is the parameter `now`. The reply of the offline mailbox when a
 * user connects is the number of messages it delivered (0 when there is
 * no mailbox, when it raised, or when it delivered nothing).
 */
module UserRegistry {
  import opened Text
  import opened Optional
  import opened Accounts

  /** The fields of one `User` object. */
  datatype UserState = UserState(
    username: string, passwordHash: string, sessionId: string,
    createdAt: real, lastActive: real, isOnline: bool, socketId: Option<string>,
    messageCount: nat, joinTime: Option<real>, lastOfflineTime: Option<real>,
    offlineMessageCount: nat, totalOfflineMessagesReceived: nat)

  /** A user as `User(...)` creates them at time `now`. */
  function NewUser(username: string, passwordHash: string, sessionId: string, now: real): (st: UserState)
    ensures st.username == username && st.passwordHash == passwordHash && st.sessionId == sessionId
    ensures !st.isOnline && st.socketId.None? && st.joinTime.None? && st.lastOfflineTime.None?
    ensures st.messageCount == 0 && st.totalOfflineMessagesReceived == 0
  {
    UserState(username, passwordHash, sessionId, now, now, false, None, 0, None, None, 0, 0)
  }

  class User {
    const username: string
    const passwordHash: string
    var sessionId: string
    const createdAt: real
    var lastActive: real
    var isOnline: bool
    var socketId: Option<string>
    var messageCount: nat
    var joinTime: Option<real>
    var lastOfflineTime: Option<real>
    var offlineMessageCount: nat
    var totalOfflineMessagesReceived: nat

    function State(): UserState
      reads this
    {
      UserState(username, passwordHash, sessionId, createdAt, lastActive, isOnline, socketId,
                messageCount, joinTime, lastOfflineTime, offlineMessageCount, totalOfflineMessagesReceived)
    }

    constructor (username: string, passwordHash: string, sessionId: string, now: real)
      ensures State() == NewUser(username, passwordHash, sessionId, now)
    {
      this.username := username;
      this.passwordHash := passwordHash;
      this.sessionId := sessionId;
      createdAt := now;
      lastActive := now;
      isOnline := false;
      socketId := None;
      messageCount := 0;
      joinTime := None;
      lastOfflineTime := None;
      offlineMessageCount := 0;
      totalOfflineMessagesReceived := 0;
    }

    /** The field updates of set_user_online, with the mailbox's delivered count added last. */
    method GoOnline(socket: string, now: real, delivered: nat)
      modifies this
      ensures State() == old(State()).(isOnline := true, socketId := Some(socket), joinTime := Some(now),
                                       lastActive := now,
                                       totalOfflineMessagesReceived := old(totalOfflineMessagesReceived) + delivered)
    {
      isOnline := true;
      socketId := Some(socket);
      joinTime := Some(now);
      lastActive := now;
      totalOfflineMessagesReceived := totalOfflineMessagesReceived + delivered;
    }

    /** The field updates of set_user_offline. */
    method GoOffline(now: real)
      modifies this
      ensures State() == old(State()).(isOnline := false, socketId := None, lastOfflineTime := Some(now))
    {
      isOnline := false;
      socketId := None;
      lastOfflineTime := Some(now);
    }

    method StartSession(id: string)
      modifies this
      ensures State() == old(State()).(sessionId := id)
    {
      sessionId := id;
    }
  }

  /** What the offline mailbox's get_queue_status reports to the registry. */
  datatype MailboxStatus = MailboxStatus(usersWithMessages: nat, totalPendingMessages: nat)

  datatype UserStats = UserStats(totalRegistered: nat, currentlyOnline: nat, currentlyOffline: int,
                                 totalFailedLogins: nat, onlineUsers: set<string>,
                                 offlineUsersWithMessages: nat, totalOfflineMessagesPending: nat,
                                 offlineQueueActive: bool)

  class UserManager {
    const hashPassword: string -> string
    var users: map<string, User>
    /** session id -> user name */
    var sessions: map<string, string>
    var onlineUsers: set<string>
    /** socket id -> user name */
    var socketToUser: map<string, string>
    var failedLoginAttempts: Counters

    /** The user registered under `name`, if any: what an operation on that name may change. */
    function Named(name: string): set<User>
      reads this
    {
      if name in users then {users[name]} else {}
    }

    /** The user `socket` maps to, if any. */
    function Owner(socket: string): set<User>
      reads this
    {
      if socket in socketToUser && socketToUser[socket] in users then {users[socketToUser[socket]]} else {}
    }

    /** Whoever the socket of the user `name` maps to, when that user has a non-empty socket. */
    function SocketOwner(name: string): set<User>
      reads this, users.Values
    {
      if name in users && Truthy(users[name].socketId) then Owner(users[name].socketId.value) else {}
    }

    ghost predicate Valid()
      reads this, users.Values
    {
      (forall u :: u in users ==>
         users[u].username == u && MinNameLength <= |u| <= MaxNameLength &&
         (users[u].isOnline <==> users[u].socketId.Some?)) &&
      CaseDistinct(users.Keys) &&
      (forall u :: u in onlineUsers <==> u in users && users[u].isOnline) &&
      (forall s :: s in sessions ==> sessions[s] in users) &&
      (forall s :: s in socketToUser ==> socketToUser[s] in users) &&
      WellFormed(failedLoginAttempts)
    }

    constructor (hashPassword: string -> string)
      ensures Valid() && this.hashPassword == hashPassword
      ensures users == map[] && sessions == map[] && onlineUsers == {} && socketToUser == map[]
      ensures failedLoginAttempts == EmptyCounters()
    {
      this.hashPassword := hashPassword;
      users := map[];
      sessions := map[];
      onlineUsers := {};
      socketToUser := map[];
      failedLoginAttempts := EmptyCounters();
    }

    /**
     * set_user_offline's effect on the registry, from the socket's owner
     * in the earlier state: an unknown socket (or one mapped to an empty
     * name) changes nothing; otherwise that user goes offline and the
     * socket's entry is removed.
     */
    twostate predicate WentOffline(socket: string, now: real)
      reads this, users.Values
    {
      users == old(users) &&
      if socket in old(socketToUser) && old(socketToUser)[socket] != [] && old(socketToUser)[socket] in old(users) then
        var name := old(socketToUser)[socket];
        users[name].State() == old(users[name].State()).(isOnline := false, socketId := None,
                                                        lastOfflineTime := Some(now)) &&
        onlineUsers == old(onlineUsers) - {name} && socketToUser == old(socketToUser) - {socket}
      else
        onlineUsers == old(onlineUsers) && socketToUser == old(socketToUser)
    }

    /**
     * register_user: the name is stripped, then checked; an accepted name
     * gets a new offline user and its first session.
     */
    method RegisterUser(username: string, password: string, sessionId: string, now: real) returns (r: RegisterResult)
      requires Valid()
      modifies this
      ensures Valid()
      ensures onlineUsers == old(onlineUsers) && socketToUser == old(socketToUser)
      ensures failedLoginAttempts == old(failedLoginAttempts)
      ensures var name := Strip(username);
              var check := RegistrationCheck(name, password, old(users).Keys);
              if check.Some? then
                r == Refused(check.value) && users == old(users) && sessions == old(sessions)
              else
                r == Registered(name, sessionId) && name !in old(users) && name in users && fresh(users[name]) &&
                users == old(users)[name := users[name]] &&
                users[name].State() == NewUser(name, hashPassword(password), sessionId, now) &&
                sessions == old(sessions)[sessionId := name]
    {
      var name := Strip(username);
      var check := RegistrationCheck(name, password, users.Keys);
      if check.Some? {
        return Refused(check.value);
      }
      AcceptedKeepsCaseDistinct(name, password, users.Keys);
      AddUser(name, hashPassword(password), sessionId, now);
      r := Registered(name, sessionId);
    }

    /** The accepted branch of register_user: a new offline user and its first session. */
    method AddUser(name: string, passwordHash: string, sessionId: string, now: real)
      requires Valid() && MinNameLength <= |name| <= MaxNameLength
      requires name !in users && CaseDistinct(users.Keys + {name})
      modifies this
      ensures Valid()
      ensures name in users && fresh(users[name]) && users == old(users)[name := users[name]]
      ensures users[name].State() == NewUser(name, passwordHash, sessionId, now)
      ensures sessions == old(sessions)[sessionId := name]
      ensures onlineUsers == old(onlineUsers) && socketToUser == old(socketToUser)
      ensures failedLoginAttempts == old(failedLoginAttempts)
    {
      var user := new User(name, passwordHash, sessionId, now);
      users := users[name := user];
      sessions := sessions[sessionId := name];
    }

    /**
     * login_user: an unknown name or a wrong password counts one more
     * failure for that name; a match starts a new session, keeping the
     * old ones, and resets the name's failures to 0.
     */
    method LoginUser(username: string, password: string, sessionId: string) returns (r: LoginResult)
      requires Valid()
      modifies this, Named(username)
      ensures Valid()
      ensures users == old(users) && onlineUsers == old(onlineUsers) && socketToUser == old(socketToUser)
      ensures if username in old(users) && old(users[username].passwordHash) == hashPassword(password) then
                r == LoggedIn(username, sessionId) &&
                sessions == old(sessions)[sessionId := username] &&
                users[username].State() == old(users[username].State()).(sessionId := sessionId) &&
                failedLoginAttempts == Put(old(failedLoginAttempts), username, 0)
              else
                r == InvalidCredentials && sessions == old(sessions) && unchanged(Named(username)) &&
                failedLoginAttempts == Bump(old(failedLoginAttempts), username)
    {
      if username !in users {
        failedLoginAttempts := Bump(failedLoginAttempts, username);
        return InvalidCredentials;
      }
      var user := users[username];
      if user.passwordHash != hashPassword(password) {
        failedLoginAttempts := Bump(failedLoginAttempts, username);
        return InvalidCredentials;
      }
      OpenSession(username, sessionId);
      r := LoggedIn(username, sessionId);
    }

    /** The successful branch of login_user: a new session for the user, whose failure count restarts at 0. */
    method OpenSession(username: string, sessionId: string)
      requires Valid() && username in users
      modifies this, users[username]
      ensures Valid()
      ensures users == old(users) && onlineUsers == old(onlineUsers) && socketToUser == old(socketToUser)
      ensures sessions == old(sessions)[sessionId := username]
      ensures users[username].State() == old(users[username].State()).(sessionId := sessionId)
      ensures failedLoginAttempts == Put(old(failedLoginAttempts), username, 0)
    {
      users[username].StartSession(sessionId);
      sessions := sessions[sessionId := username];
      failedLoginAttempts := Put(failedLoginAttempts, username, 0);
    }

    /** is_username_available: `Available` on the registered names. */
    function IsUsernameAvailable(username: string): (r: bool)
      reads this
      ensures r == Available(username, users.Keys)
    {
      Available(username, users.Keys)
    }

    /**
     * set_user_online: an unknown name changes nothing. A known user goes
     * online on the socket, and the socket now maps to them; a previous
     * socket of theirs keeps its entry.
     */
    method SetUserOnline(username: string, socket: string, now: real, delivered: nat) returns (ok: bool)
      requires Valid()
      modifies this, Named(username)
      ensures Valid()
      ensures ok == (username in old(users))
      ensures users == old(users) && sessions == old(sessions) && failedLoginAttempts == old(failedLoginAttempts)
      ensures ok ==>
                users[username].State() == old(users[username].State()).(
                  isOnline := true, socketId := Some(socket), joinTime := Some(now), lastActive := now,
                  totalOfflineMessagesReceived := old(users[username].totalOfflineMessagesReceived) + delivered) &&
                onlineUsers == old(onlineUsers) + {username} &&
                socketToUser == old(socketToUser)[socket := username]
      ensures !ok ==> onlineUsers == old(onlineUsers) && socketToUser == old(socketToUser)
    {
      if username !in users {
        return false;
      }
      var user := users[username];
      user.GoOnline(socket, now, delivered);
      onlineUsers := onlineUsers + {username};
      socketToUser := socketToUser[socket := username];
      ok := true;
    }

    /**
     * set_user_offline: the socket's user goes offline, the socket's entry
     * is removed, and the name is returned; an unknown socket gives None.
     */
    method SetUserOffline(socket: string, now: real) returns (gone: Option<string>)
      requires Valid()
      modifies this, Owner(socket)
      ensures Valid()
      ensures sessions == old(sessions) && failedLoginAttempts == old(failedLoginAttempts)
      ensures gone == if socket in old(socketToUser) then Some(old(socketToUser)[socket]) else None
      ensures WentOffline(socket, now)
    {
      if socket !in socketToUser || socketToUser[socket] == [] {
        return None;
      }
      var name := socketToUser[socket];
      var user := users[name];
      user.GoOffline(now);
      onlineUsers := onlineUsers - {name};
      socketToUser := socketToUser - {socket};
      gone := Some(name);
    }

    /**
     * logout_user: an unknown session gives false. Otherwise the session is
     * deleted, and if its user has a socket, whoever that socket now maps
     * to goes offline.
     */
    method LogoutUser(sessionId: string, now: real) returns (ok: bool)
      requires Valid()
      modifies this, if sessionId in sessions then SocketOwner(sessions[sessionId]) else {}
      ensures Valid()
      ensures ok == (sessionId in old(sessions))
      ensures users == old(users) && failedLoginAttempts == old(failedLoginAttempts)
      ensures !ok ==> sessions == old(sessions) && onlineUsers == old(onlineUsers) && socketToUser == old(socketToUser)
      ensures ok ==> sessions == old(sessions) - {sessionId}
      ensures ok ==> var socket := old(users[sessions[sessionId]].socketId);
                     if Truthy(socket) then WentOffline(socket.value, now)
                     else onlineUsers == old(onlineUsers) && socketToUser == old(socketToUser)
    {
      if sessionId !in sessions || sessions[sessionId] == [] {
        return false;
      }
      var name := sessions[sessionId];
      sessions := sessions - {sessionId};
      var user := users[name];
      if Truthy(user.socketId) {
        var _ := SetUserOffline(user.socketId.value, now);
      }
      ok := true;
    }

    /** A session is stale when its user is offline and was last active more than `hours` hours ago. */
    predicate Stale(session: string, hours: int, now: real)
      reads this, users.Values
    {
      session in sessions && sessions[session] in users &&
      now - users[sessions[session]].lastActive > (hours * 3600) as real &&
      !users[sessions[session]].isOnline
    }

    /**
     * cleanup_inactive_sessions: collects the stale sessions, deletes
     * them, and returns how many there were.
     */
    method CleanupInactiveSessions(hours: int, now: real) returns (count: nat)
      requires Valid()
      modifies this
      ensures Valid()
      ensures var stale := old(set s | s in sessions && Stale(s, hours, now));
              sessions == old(sessions) - stale && count == |stale|
      ensures users == old(users) && onlineUsers == old(onlineUsers) && socketToUser == old(socketToUser)
      ensures failedLoginAttempts == old(failedLoginAttempts)
    {
      var stale := StaleSessions(hours, now);
      assert stale == old(set s | s in sessions && Stale(s, hours, now));
      DropSessions(stale);
      count := |stale|;
    }

    /** The first loop of cleanup_inactive_sessions: every stale session, found one session at a time. */
    method StaleSessions(hours: int, now: real) returns (stale: set<string>)
      ensures stale == set s | s in sessions && Stale(s, hours, now)
    {
      stale := {};
      var unseen := sessions.Keys;
      while unseen != {}
        invariant unseen <= sessions.Keys
        invariant stale == set s | s in sessions && s !in unseen && Stale(s, hours, now)
        decreases |unseen|
      {
        var s :| s in unseen;
        var name := sessions[s];
        if name in users {
          var user := users[name];
          if now - user.lastActive > (hours * 3600) as real && !user.isOnline {
            stale := stale + {s};
          }
        }
        unseen := unseen - {s};
      }
    }

    /** The second loop of cleanup_inactive_sessions: `del self.sessions[s]` for each collected session. */
    method DropSessions(stale: set<string>)
      requires Valid()
      modifies this
      ensures Valid()
      ensures sessions == old(sessions) - stale
      ensures users == old(users) && onlineUsers == old(onlineUsers) && socketToUser == old(socketToUser)
      ensures failedLoginAttempts == old(failedLoginAttempts)
    {
      var pending := stale;
      while pending != {}
        invariant pending <= stale
        invariant sessions == old(sessions) - (stale - pending)
        invariant users == old(users) && onlineUsers == old(onlineUsers) && socketToUser == old(socketToUser)
        invariant failedLoginAttempts == old(failedLoginAttempts)
        decreases |pending|
      {
        var s :| s in pending;
        sessions := sessions - {s};
        pending := pending - {s};
      }
    }

    /**
     * force_user_offline: true exactly when the user exists, is online and
     * has a non-empty socket, which then goes offline as in
     * set_user_offline (whoever that socket maps to now).
     */
    method ForceUserOffline(username: string, now: real) returns (forced: bool)
      requires Valid()
      modifies this, if username in users && users[username].isOnline then SocketOwner(username) else {}
      ensures Valid()
      ensures forced == (username in old(users) && old(users[username].isOnline) &&
                         Truthy(old(users[username].socketId)))
      ensures sessions == old(sessions) && failedLoginAttempts == old(failedLoginAttempts)
      ensures forced ==> WentOffline(old(users[username].socketId.value), now)
      ensures !forced ==> users == old(users) && onlineUsers == old(onlineUsers) && socketToUser == old(socketToUser)
    {
      if username !in users || !users[username].isOnline {
        return false;
      }
      var socket := users[username].socketId;
      if Truthy(socket) {
        var _ := SetUserOffline(socket.value, now);
        return true;
      }
      forced := false;
    }

    /**
     * get_user_stats: `currently_offline` is the number of registered
     * users who are offline, and the failure total adds up every counter.
     * `mailbox` is the offline mailbox's report, None when there is none.
     */
    function GetUserStats(mailbox: Option<MailboxStatus>): (stats: UserStats)
      requires Valid()
      reads this, users.Values
      ensures stats.totalRegistered == |users| && stats.currentlyOnline == |onlineUsers|
      ensures stats.onlineUsers == onlineUsers && stats.currentlyOnline <= stats.totalRegistered
      ensures stats.currentlyOffline == |set u | u in users && !users[u].isOnline|
      ensures stats.totalFailedLogins == Total(failedLoginAttempts)
      ensures stats.offlineQueueActive == mailbox.Some?
      ensures mailbox.None? ==> stats.offlineUsersWithMessages == 0 && stats.totalOfflineMessagesPending == 0
    {
      var offline := set u | u in users && !users[u].isOnline;
      assert onlineUsers <= users.Keys && offline == users.Keys - onlineUsers;
      OfflineCount(users.Keys, onlineUsers, offline);
      UserStats(|users|, |onlineUsers|, |users| - |onlineUsers|, Total(failedLoginAttempts), onlineUsers,
                if mailbox.Some? then mailbox.value.usersWithMessages else 0,
                if mailbox.Some? then mailbox.value.totalPendingMessages else 0,
                mailbox.Some?)
    }
  }
}
