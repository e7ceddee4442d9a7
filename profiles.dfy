/** The `profiles` table: one entitlement row per user, and the remote store that holds it. */
module Profiles {
  import opened Common

  /** A user id, as the session and the `id` column carry it. */
  type Id = string

  /**
   * A row of `profiles` as the pages read it. Every column may come back
   * missing, so each is optional; counts are the table's integer columns.
   */
  datatype Profile = Profile(
    id: Id,
    role: Option<string>,
    dailyCount: Option<int>,   // daily_usage_count
    imageCount: Option<int>)   // image_generation_count

  /**
   * How the pages classify a profile snapshot: `role === "free"`,
   * `role === "pro"`, or anything else (a null snapshot, a missing or unknown role).
   */
  datatype Role = Free | Pro | Other

  function RoleOf(p: Option<Profile>): (r: Role)
    ensures r != Other ==> p.Some? && p.value.role.Some?
    ensures r == Free <==> p.Some? && p.value.role == Some("free")
    ensures r == Pro <==> p.Some? && p.value.role == Some("pro")
  {
    if p.None? then Other
    else if p.value.role == Some("free") then Free
    else if p.value.role == Some("pro") then Pro
    else Other
  }

  /** `count || 0`: a missing count reads as zero. */
  function OrZero(c: Option<int>): int {
    if c.Some? then c.value else 0
  }

  /** `profile?.daily_usage_count || 0`. */
  function DailyUsed(p: Option<Profile>): int {
    if p.Some? then OrZero(p.value.dailyCount) else 0
  }

  /** `profile?.image_generation_count || 0`. */
  function ImagesUsed(p: Option<Profile>): int {
    if p.Some? then OrZero(p.value.imageCount) else 0
  }

  /** The two usage counters the pages write. */
  datatype Counter = DailyUsage | ImageGenerations

  function CountOf(p: Profile, c: Counter): Option<int> {
    match c
    case DailyUsage => p.dailyCount
    case ImageGenerations => p.imageCount
  }

  /** One request against the store, as recorded in its access log. */
  datatype Access = Read(id: Id) | Write(id: Id, counter: Counter)

  /**
   * `select("*").eq("id", id).single()`: the row when the request reaches the
   * store and exactly one row has that id, otherwise an error with null data.
   */
  function Lookup(rows: map<Id, Profile>, id: Id, reachable: bool): (r: Option<Profile>)
    ensures r.Some? <==> reachable && id in rows
    ensures r.Some? ==> r.value == rows[id]
  {
    if reachable && id in rows then Some(rows[id]) else None
  }

  /**
   * `update({counter: v}).eq("id", id)`: the row with that id, if there is one,
   * gets `v` in that one column; an id with no row matches nothing.
   */
  function WithCount(rows: map<Id, Profile>, id: Id, c: Counter, v: int): (r: map<Id, Profile>)
    ensures r.Keys == rows.Keys
    ensures forall k :: k in rows && k != id ==> r[k] == rows[k]
    ensures id in rows ==> CountOf(r[id], c) == Some(v)
    ensures id in rows ==> r[id].id == rows[id].id && r[id].role == rows[id].role
    ensures id in rows ==> forall d :: d != c ==> CountOf(r[id], d) == CountOf(rows[id], d)
  {
    if id !in rows then rows
    else
      var p := rows[id];
      rows[id := match c
                 case DailyUsage => p.(dailyCount := Some(v))
                 case ImageGenerations => p.(imageCount := Some(v))]
  }

  /** The remote profile store, with a ghost log of the requests made to it. */
  class ProfileStore {
    var rows: map<Id, Profile>
    ghost var accesses: seq<Access>

    /** Rows are keyed by their own id. */
    ghost predicate Valid()
      reads this
    {
      forall k :: k in rows ==> rows[k].id == k
    }

    constructor (rows: map<Id, Profile>)
      requires forall k :: k in rows ==> rows[k].id == k
      ensures Valid() && this.rows == rows && accesses == []
    {
      this.rows := rows;
      accesses := [];
    }

    /** A point read of the row `id`; `reachable` is whether the request got through. */
    method Select(id: Id, reachable: bool) returns (data: Option<Profile>)
      requires Valid()
      modifies this`accesses
      ensures data == Lookup(rows, id, reachable)
      ensures data.Some? ==> data.value.id == id
      ensures accesses == old(accesses) + [Read(id)]
    {
      data := Lookup(rows, id, reachable);
      accesses := accesses + [Read(id)];
    }

    /**
     * A point write of one counter; `lands` is whether the request took
     * effect. Its error, if any, goes back to the caller unraised.
     */
    method Update(id: Id, c: Counter, v: int, lands: bool)
      requires Valid()
      modifies this
      ensures Valid()
      ensures rows == (if lands then WithCount(old(rows), id, c, v) else old(rows))
      ensures accesses == old(accesses) + [Write(id, c)]
    {
      if lands {
        rows := WithCount(rows, id, c, v);
      }
      accesses := accesses + [Write(id, c)];
    }
  }
}
