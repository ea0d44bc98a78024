/** Permission levels as the words they are on the wire: read, write, admin. */
module Levels {
  import opened Model

  predicate MayWrite(level: string) {
    level == "write" || level == "admin"
  }

  predicate MayRead(level: string) {
    level == "read" || MayWrite(level)
  }

  // The order read, write, admin, spelled out; any other word is no level.
  predicate NotAbove(wanted: string, granted: string) {
    || (wanted == "read" && (granted == "read" || granted == "write" || granted == "admin"))
    || (wanted == "write" && (granted == "write" || granted == "admin"))
    || (wanted == "admin" && granted == "admin")
  }

  lemma RankIsOrder(wanted: string, granted: string)
    ensures NotAbove(wanted, granted)
            <==> PermissionRank(wanted) != 0 && PermissionRank(wanted) <= PermissionRank(granted)
  {
  }

  lemma RankMeans(level: string)
    ensures MayRead(level) <==> PermissionRank(level) >= PermissionRank("read")
    ensures MayWrite(level) <==> PermissionRank(level) >= PermissionRank("write")
    ensures MayRead(level) <==> PermissionRank(level) != 0
    ensures PermissionRank("read") == 1 && PermissionRank("write") == 2
  {
  }

  // The token holds this permission at a level that lets it write, or read.
  predicate Writes(t: Token, permission: string) {
    permission in t.permissions && MayWrite(t.permissions[permission])
  }

  predicate Reads(t: Token, permission: string) {
    permission in t.permissions && MayRead(t.permissions[permission])
  }
}
