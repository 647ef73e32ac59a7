/**
 * The status column of the user store, as written through
 * `UserService.updateUserStatus`. The store itself is a collaborator: a write
 * either settles (and takes effect) or is rejected (and changes nothing).
 */
module Users {
  import opened Common

  /** The status map after `updateUserStatus(u, st)` settled as `saved` says. */
  function StatusAfter(status: map<UserKey, UserStatus>, u: UserKey, st: UserStatus, saved: bool): (r: map<UserKey, UserStatus>)
    ensures saved ==> u in r && r[u] == st
    ensures forall v :: v != u ==> (v in r <==> v in status) && (v in r ==> r[v] == status[v])
    ensures !saved ==> r == status
  {
    if saved then status[u := st] else status
  }

  class UserStatusStore {
    var status: map<UserKey, UserStatus>

    constructor ()
      ensures status == map[]
    {
      status := map[];
    }

    method UpdateUserStatus(u: UserKey, st: UserStatus, saved: bool)
      modifies this
      ensures status == StatusAfter(old(status), u, st, saved)
    {
      if saved {
        status := status[u := st];
      }
    }
  }
}
