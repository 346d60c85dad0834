/**
 * The users page: one console session per active user name reported by the
 * WMI service, the logoff command and the (not implemented) message command.
 */
module Users {
  import opened Wrappers
  import opened Text
  import opened Queries
  import opened Models
  import opened WmiServices

  /** UserSessionInfo: never changed after it is built, so a value. Idle time is in seconds. */
  datatype UserSession = UserSession(
    username: string,
    sessionType: string,
    logonTime: Timestamp,
    idleTime: int,
    sessionId: string)

  /** The session LoadUserSessions builds for a user name: a console session logged on now, never idle. */
  function SessionOf(now: Timestamp): string -> UserSession
  {
    (u: string) => UserSession(u, "Console", now, 0, u)
  }

  /** The sessions of the active users, one per name and in the same order. */
  function Sessions(users: seq<string>, now: Timestamp): (r: seq<UserSession>)
    ensures |r| == |users|
  {
    Mapped(users, SessionOf(now))
  }

  /** Each session names its user twice (user name and session id) and is a console session started now. */
  lemma SessionsMeaning(users: seq<string>, now: Timestamp)
    ensures forall i :: 0 <= i < |users| ==>
      && Sessions(users, now)[i].username == users[i]
      && Sessions(users, now)[i].sessionId == users[i]
      && Sessions(users, now)[i].sessionType == "Console"
      && Sessions(users, now)[i].logonTime == now
      && Sessions(users, now)[i].idleTime == 0
  {
  }

  /** The sessions of the WMI rows hold exactly the non-empty user names reported. */
  lemma SessionsOfRows(items: seq<Option<string>>, now: Timestamp, name: string)
    ensures (exists i :: 0 <= i < |Sessions(UserNames(items), now)| && Sessions(UserNames(items), now)[i].username == name)
      <==> name != "" && Some(name) in items
  {
    var users := UserNames(items);
    UserNamesMembers(items, name);
    if name in users {
      var i :| 0 <= i < |users| && users[i] == name;
      assert Sessions(users, now)[i].username == name;
    }
  }

  function LoadedText(count: int): string
  {
    "Loaded " + IntToString(count) + " user session(s)"
  }

  /** The status a logoff request leaves when the system refuses it. */
  function LogoffFailedText(username: string): string
  {
    "Failed to logoff " + username
  }

  class UsersViewModel {
    /** _allUsers */
    var allUsers: seq<UserSession>
    /** UserSessions: the displayed collection. */
    var userSessions: seq<UserSession>
    var selectedUser: Option<UserSession>
    var statusText: string
    var isLoading: bool

    constructor ()
      ensures allUsers == [] && userSessions == [] && selectedUser == None
      ensures statusText == "Loading user sessions..." && !isLoading
    {
      allUsers, userSessions, selectedUser := [], [], None;
      statusText, isLoading := "Loading user sessions...", false;
    }

    /**
     * LoadUserSessions: the active users become console sessions logged on
     * at `now`; the displayed list is cleared and refilled with all of them,
     * and the status reports how many are shown.
     */
    method LoadUserSessions(items: Option<seq<Option<string>>>, now: Timestamp)
      modifies this`allUsers, this`userSessions, this`statusText, this`isLoading
      ensures items.None? ==> allUsers == []
      ensures items.Some? ==> allUsers == Sessions(UserNames(items.value), now)
      ensures userSessions == allUsers
      ensures statusText == LoadedText(|userSessions|) && !isLoading
    {
      isLoading := true;
      statusText := "Loading user sessions...";
      var activeUsers := GetActiveUsers(items);
      allUsers := Mapped(activeUsers, SessionOf(now));
      userSessions := Refill(allUsers);
      statusText := LoadedText(|userSessions|);
      isLoading := false;
    }

    /**
     * LogoffUserAsync: nothing for a null user. Otherwise the system is asked
     * to log the user off (`success` is its answer); on success the status
     * names the user and the sessions are reloaded from `items`, on refusal
     * the status says so.
     */
    method LogoffUserAsync(user: Option<UserSession>, success: bool, items: Option<seq<Option<string>>>, now: Timestamp)
      modifies this`allUsers, this`userSessions, this`statusText, this`isLoading
      ensures user.None? ==>
        && allUsers == old(allUsers) && userSessions == old(userSessions)
        && statusText == old(statusText) && isLoading == old(isLoading)
      ensures user.Some? && success ==>
        && (items.None? ==> allUsers == []) && (items.Some? ==> allUsers == Sessions(UserNames(items.value), now))
        && userSessions == allUsers && statusText == LoadedText(|userSessions|) && !isLoading
      ensures user.Some? && !success ==>
        && allUsers == old(allUsers) && userSessions == old(userSessions)
        && statusText == LogoffFailedText(user.value.username) && !isLoading
    {
      if user.None? {
        return;
      }
      isLoading := true;
      if success {
        statusText := "Logged off user: " + user.value.username;
        LoadUserSessions(items, now);
      } else {
        statusText := LogoffFailedText(user.value.username);
      }
      isLoading := false;
    }

    /** With the WMI service's logoff, which always reports success, a logoff never ends in the failure status. */
    method LogoffThroughWmi(user: UserSession, items: Option<seq<Option<string>>>, now: Timestamp)
      modifies this`allUsers, this`userSessions, this`statusText, this`isLoading
      ensures userSessions == allUsers && statusText == LoadedText(|userSessions|)
      ensures statusText != LogoffFailedText(user.username)
    {
      var ok := LogoffUser(user.username);
      LogoffUserAsync(Some(user), ok, items, now);
      assert statusText[..2] == "Lo" && LogoffFailedText(user.username)[..2] == "Fa";
    }

    /** SendMessageToUserAsync: nothing for a null user or a blank message (a null message is blank too, so the model's "" stands for it); otherwise only the status changes. */
    method SendMessageToUserAsync(user: Option<UserSession>, message: string)
      modifies this`statusText
      ensures user.None? || IsBlank(message) ==> statusText == old(statusText)
      ensures user.Some? && !IsBlank(message) ==> statusText == "Message sent to " + user.value.username
    {
      if user.None? || IsBlank(message) {
        return;
      }
      statusText := "Message sent to " + user.value.username;
    }
  }
}
