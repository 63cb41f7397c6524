/** Model of backend/app/services/license_service.py over the `licenses`
    table of backend/app/models/license.py. Times are seconds since an
    epoch; `now` stands for `datetime.utcnow()`. */
module LicenseService {
  import opened Wrappers

  const SecondsPerDay: int := 86400

  /** One row of the `licenses` table. `validUntil` is nullable. */
  datatype License = License(id: nat, userId: int, plan: string, isActive: bool,
                             validUntil: Option<int>, createdAt: int)

  predicate ActiveFor(l: License, userId: int) {
    l.userId == userId && l.isActive
  }

  /** `valid_until < now` as SQL evaluates it: a NULL `valid_until` is never past. */
  predicate Expired(l: License, now: int) {
    l.validUntil.Some? && l.validUntil.value < now
  }

  /** The autoincrement primary key: the i-th inserted row has id i + 1. */
  ghost predicate WellKeyed(rows: seq<License>) {
    forall i :: 0 <= i < |rows| ==> rows[i].id == i + 1
  }

  /** `get_license_for_user`: the first active license of the user, if any. */
  function LicenseForUser(rows: seq<License>, userId: int): (r: Option<License>)
    ensures r.Some? ==> r.value in rows && ActiveFor(r.value, userId)
    ensures r.None? <==> forall i :: 0 <= i < |rows| ==> !ActiveFor(rows[i], userId)
    decreases |rows|
  {
    if rows == [] then None
    else if ActiveFor(rows[0], userId) then Some(rows[0])
    else
      var r := LicenseForUser(rows[1..], userId);
      assert forall i :: 1 <= i < |rows| ==> rows[i] == rows[1..][i - 1];
      r
  }

  /** What `deactivate_expired_licenses` does to one row. */
  function ExpireOne(l: License, now: int): License {
    if l.isActive && Expired(l, now) then l.(isActive := false) else l
  }

  /** The table after `deactivate_expired_licenses` at time `now`. */
  function ExpireAll(rows: seq<License>, now: int): (r: seq<License>)
    ensures |r| == |rows|
    ensures forall i :: 0 <= i < |rows| ==> r[i] == ExpireOne(rows[i], now)
  {
    seq(|rows|, i requires 0 <= i < |rows| => ExpireOne(rows[i], now))
  }

  /** Afterwards no active license is past its `valid_until`. */
  lemma NoActiveExpiredAfterSweep(rows: seq<License>, now: int)
    ensures forall i :: 0 <= i < |rows| ==> !(ExpireAll(rows, now)[i].isActive && Expired(ExpireAll(rows, now)[i], now))
  {
  }

  /** Unexpired, open-ended and inactive rows are untouched, and on the others
      only `is_active` changes. */
  lemma SweepFrame(rows: seq<License>, now: int)
    ensures forall i :: 0 <= i < |rows| && (!rows[i].isActive || !Expired(rows[i], now)) ==>
      ExpireAll(rows, now)[i] == rows[i]
    ensures forall i :: 0 <= i < |rows| ==> ExpireAll(rows, now)[i] == rows[i].(isActive := ExpireAll(rows, now)[i].isActive)
  {
  }

  /** Sweeping twice at the same `now` is the same as sweeping once. */
  lemma SweepIdempotent(rows: seq<License>, now: int)
    ensures ExpireAll(ExpireAll(rows, now), now) == ExpireAll(rows, now)
  {
  }

  /** The `licenses` table. */
  class LicenseTable {
    var rows: seq<License>

    ghost predicate Valid()
      reads this
    {
      WellKeyed(rows)
    }

    constructor ()
      ensures Valid() && rows == []
    {
      rows := [];
    }
  }

  /** `create_license`: adds one active license valid for `validDays` days
      (30 unless given); no existing row changes. */
  method CreateLicense(db: LicenseTable, userId: int, plan: string, now: int, validDays: int := 30)
    returns (l: License)
    requires db.Valid()
    modifies db
    ensures db.Valid()
    ensures l == License(|old(db.rows)| + 1, userId, plan, true, Some(now + validDays * SecondsPerDay), now)
    ensures db.rows == old(db.rows) + [l]
  {
    l := License(|db.rows| + 1, userId, plan, true, Some(now + validDays * SecondsPerDay), now);
    db.rows := db.rows + [l];
  }

  /** `deactivate_expired_licenses`: every active row whose `valid_until` is
      before `now` is set inactive. */
  method DeactivateExpiredLicenses(db: LicenseTable, now: int)
    requires db.Valid()
    modifies db
    ensures db.Valid()
    ensures db.rows == ExpireAll(old(db.rows), now)
  {
    var i := 0;
    while i < |db.rows|
      invariant 0 <= i <= |db.rows| == |old(db.rows)|
      invariant forall k :: 0 <= k < i ==> db.rows[k] == ExpireOne(old(db.rows)[k], now)
      invariant forall k :: i <= k < |db.rows| ==> db.rows[k] == old(db.rows)[k]
    {
      if db.rows[i].isActive && Expired(db.rows[i], now) {
        db.rows := db.rows[i := db.rows[i].(isActive := false)];
      }
      i := i + 1;
    }
  }
}
