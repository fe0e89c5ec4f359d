/**
 Bytes reserved for captured extension sources. A capture reserves a whole package limit, then
 keeps only what it read, as a lease; each method is one critical section of the source's lock.
 */
module SourceBudget {

  /** A captured bundle; `total` is what it retains. */
  class BundleLease {
    const total: nat
    var reserved: nat
    var released: bool

    constructor (total: nat)
      ensures this.total == total && reserved == total && !released
    {
      this.total, reserved, released := total, total, false;
    }
  }

  ghost function Bytes(leases: set<BundleLease>): nat {
    if leases == {} then 0 else var lease :| lease in leases; lease.total + Bytes(leases - {lease})
  }

  lemma {:induction false} BytesWithout(leases: set<BundleLease>, lease: BundleLease)
    requires lease in leases
    ensures Bytes(leases) == lease.total + Bytes(leases - {lease})
    decreases |leases|
  {
    var first :| first in leases && Bytes(leases) == first.total + Bytes(leases - {first});
    if first != lease {
      BytesWithout(leases - {first}, lease);
      BytesWithout(leases - {lease}, first);
      assert leases - {first} - {lease} == leases - {lease} - {first};
    }
  }

  lemma BytesWith(leases: set<BundleLease>, lease: BundleLease)
    requires lease !in leases
    ensures Bytes(leases + {lease}) == Bytes(leases) + lease.total
  {
    BytesWithout(leases + {lease}, lease);
    assert leases + {lease} - {lease} == leases;
  }

  class FactorySource {
    const packageLimit: nat
    const runtimeLimit: nat
    var reserved: int
    var leases: set<BundleLease>
    /** Captures between their reservation and their outcome. */
    ghost var inFlight: nat

    /** The whole account: reservations in flight plus the bytes of unreleased leases, within the limit. */
    ghost predicate Valid()
      reads this, leases
    {
      && reserved == inFlight * packageLimit + Bytes(leases)
      && reserved <= runtimeLimit
      && (forall lease :: lease in leases ==> lease.reserved == lease.total)
    }

    constructor (packageLimit: nat, runtimeLimit: nat)
      ensures Valid() && reserved == 0 && leases == {} && inFlight == 0
      ensures this.packageLimit == packageLimit && this.runtimeLimit == runtimeLimit
    {
      this.packageLimit, this.runtimeLimit := packageLimit, runtimeLimit;
      reserved, leases, inFlight := 0, {}, 0;
    }

    method BeginCapture() returns (ok: bool)
      requires Valid()
      modifies this
      ensures Valid() && leases == old(leases)
      ensures ok <==> old(reserved) + packageLimit <= runtimeLimit
      ensures inFlight == old(inFlight) + (if ok then 1 else 0)
    {
      if reserved + packageLimit > runtimeLimit { return false; }
      reserved := reserved + packageLimit;
      inFlight := inFlight + 1;
      return true;
    }

    /** Gives a reservation back. The clamp at zero never acts. */
    method ReleaseReservation(amount: nat)
      requires amount <= reserved
      modifies this`reserved
      ensures reserved == old(reserved) - amount
    {
      reserved := Clamped(reserved - amount);
    }

    /** A capture that failed or was cancelled. */
    method FailCapture()
      requires Valid() && inFlight > 0
      modifies this
      ensures Valid() && leases == old(leases) && inFlight == old(inFlight) - 1
      ensures reserved == old(reserved) - packageLimit
    {
      OneOfMany(inFlight, packageLimit);
      ReleaseReservation(packageLimit);
      inFlight := inFlight - 1;
    }

    /** A capture that succeeded keeps exactly the bytes it read, at most a package limit. */
    method FinishCapture(total: nat) returns (lease: BundleLease)
      requires Valid() && inFlight > 0 && total <= packageLimit
      modifies this
      ensures Valid() && fresh(lease) && lease.total == total && !lease.released
      ensures leases == old(leases) + {lease} && inFlight == old(inFlight) - 1
      ensures reserved == old(reserved) - packageLimit + total
    {
      OneOfMany(inFlight, packageLimit);
      lease := new BundleLease(total);
      BytesWith(leases, lease);
      leases := leases + {lease};
      reserved := reserved - (packageLimit - total);
      inFlight := inFlight - 1;
    }

    method ReleaseLease(lease: BundleLease)
      requires Valid()
      modifies this, lease
      ensures Valid() && leases == old(leases) - {lease} && inFlight == old(inFlight)
      ensures reserved == old(reserved) - (if lease in old(leases) then lease.total else 0)
      ensures lease.released == old(lease.released)
      ensures lease.reserved == if lease in old(leases) then 0 else old(lease.reserved)
    {
      if lease in leases {
        BytesWithout(leases, lease);
        leases := leases - {lease};
        reserved := Clamped(reserved - lease.reserved);
        lease.reserved := 0;
      }
    }

    /** `_FactoryBundleLease.release`: only the first call gives bytes back. */
    method Release(lease: BundleLease)
      requires Valid()
      modifies this, lease
      ensures Valid() && lease.released && inFlight == old(inFlight)
      ensures leases == if old(lease.released) then old(leases) else old(leases) - {lease}
      ensures reserved == old(reserved) - (if !old(lease.released) && lease in old(leases) then lease.total else 0)
    {
      if lease.released { return; }
      lease.released := true;
      ReleaseLease(lease);
    }
  }

  function Clamped(amount: int): int { if amount < 0 then 0 else amount }

  lemma OneOfMany(count: nat, limit: nat)
    requires count > 0
    ensures count * limit == (count - 1) * limit + limit
  {}

  /** Never negative, never over the limit, and empty exactly when everything has been given back. */
  lemma AccountInBounds(source: FactorySource)
    requires source.Valid()
    ensures 0 <= source.reserved <= source.runtimeLimit
    ensures source.packageLimit > 0 && source.reserved < source.packageLimit ==> source.inFlight == 0
    ensures source.inFlight == 0 && source.leases == {} ==> source.reserved == 0
  {
    if source.inFlight > 0 { OneOfMany(source.inFlight, source.packageLimit); }
  }
}
