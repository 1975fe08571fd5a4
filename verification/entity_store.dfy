/**
 * The entity store the handlers load from and save to, and the get-or-create
 * helpers of src/helpers.ts that write to it.
 *
 * `Entity.load(id)` is a map lookup, `entity.save()` a map update. The two
 * singleton entities with the fixed id "windswap" (Protocol, Bundle) are
 * `Option` fields.
 */
module EntityStore {
  import opened Helpers
  import opened Schema
  import MapSum

  class Store {
    var protocol: Option<Protocol>
    var bundle: Option<Bundle>
    var tokens: map<Address, Token>
    var pools: map<Address, Pool>
    var lookups: map<LookupKey, PoolLookup>
    var dayData: map<BucketKey, PoolDayData>
    var hourData: map<BucketKey, PoolHourData>
    var swaps: map<EventKey, SwapRecord>
    var mints: map<EventKey, MintRecord>
    var burns: map<EventKey, BurnRecord>
    var users: map<Address, User>
    var transactions: map<string, Transaction>
    var positions: map<int, Position>
    var snapshots: map<SnapshotKey, PositionSnapshot>
    var collects: map<EventKey, CollectRecord>
    var gauges: map<Address, Gauge>
    var stakes: map<StakeKey, GaugeStakedPosition>
    var epochs: map<EpochKey, GaugeEpochData>
    var profiles: map<Address, UserProfile>
    var rewardSources: map<Address, VotingRewardSource>
    var rewardClaims: map<EventKey, VotingRewardClaim>
    var veNFTs: map<int, VeNFT>
    var proposals: map<int, Proposal>
    var votes: map<VoteKey, ProposalVote>
    var veRewards: map<int, VeNFTRewards>

    /** Each day/hour bucket sits under the key its pool and start time were derived from. */
    ghost predicate BucketsValid()
      reads this`dayData, this`hourData
    {
      DayBucketsKeyed(dayData) && HourBucketsKeyed(hourData)
    }

    /** Every gauge mirrors its total supply in `totalStaked`. */
    ghost predicate GaugesBalanced()
      reads this`gauges
    {
      StakedMatchesSupply(gauges)
    }

    /** Every position and veNFT owner is a stored User. */
    ghost predicate OwnersRegistered()
      reads this`users, this`positions, this`veNFTs
    {
      PositionOwnersKnown(positions, users) && VeNFTOwnersKnown(veNFTs, users)
    }

    ghost predicate Valid()
      reads this
    {
      BucketsValid() && GaugesBalanced() && OwnersRegistered()
    }

    /** An empty store, as at the start of indexing. */
    constructor ()
      ensures Valid()
      ensures protocol == None && bundle == None
      ensures tokens == map[] && pools == map[] && lookups == map[] && dayData == map[] && hourData == map[]
      ensures swaps == map[] && mints == map[] && burns == map[] && users == map[] && transactions == map[]
      ensures positions == map[] && snapshots == map[] && collects == map[] && gauges == map[] && stakes == map[]
      ensures epochs == map[] && profiles == map[] && rewardSources == map[] && rewardClaims == map[]
      ensures veNFTs == map[] && proposals == map[] && votes == map[] && veRewards == map[]
    {
      protocol, bundle := None, None;
      tokens, pools, lookups, dayData, hourData := map[], map[], map[], map[], map[];
      swaps, mints, burns, users, transactions := map[], map[], map[], map[], map[];
      positions, snapshots, collects, gauges, stakes := map[], map[], map[], map[], map[];
      epochs, profiles, rewardSources, rewardClaims := map[], map[], map[], map[];
      veNFTs, proposals, votes, veRewards := map[], map[], map[], map[];
    }

    /** `getOrCreateUser`: loads the user, or saves a fresh one with zero counters. */
    method GetOrCreateUser(address: Address) returns (user: User)
      modifies this`users
      ensures user == UserOrNew(old(users), address)
      ensures users == old(users)[address := user]
      ensures address in old(users) ==> users == old(users)
    {
      if address in users {
        user := users[address];
      } else {
        user := User(0, 0, 0.0);
        users := users[address := user];
      }
    }

    /**
     * Loads (or creates) one user and saves it with a counter moved by `delta`,
     * as a veNFT deposit (+1) or withdrawal (-1) does. The total of that counter
     * over all users moves by exactly `delta`.
     */
    method BumpCount(c: Counter, a: Address, delta: int)
      requires Valid()
      modifies this`users
      ensures Valid()
      ensures users == Bumped(old(users), c, a, delta)
      ensures MapSum.SumValues(Counts(users, c)) == MapSum.SumValues(Counts(old(users), c)) + delta
    {
      var r := Bumped(users, c, a, delta);
      BumpedSum(users, c, a, delta);
      OwnersKnownAfterGrowth(positions, veNFTs, users, r);
      users := r;
    }

    /**
     * Moves one NFT's worth of a counter from a stored owner to a recipient
     * (created if needed). The total of that counter over all users is unchanged.
     */
    method MoveCount(c: Counter, from: Address, to: Address)
      requires Valid() && from in users
      modifies this`users
      ensures Valid()
      ensures users == MoveOne(old(users), c, from, to)
      ensures MapSum.SumValues(Counts(users, c)) == MapSum.SumValues(Counts(old(users), c))
    {
      var r := MoveOne(users, c, from, to);
      MoveOneKeepsTotal(users, c, from, to);
      OwnersKnownAfterGrowth(positions, veNFTs, users, r);
      users := r;
    }

    /** `getOrCreateBundle`: loads the "windswap" bundle, or saves one priced at zero. */
    method GetOrCreateBundle() returns (b: Bundle)
      modifies this`bundle
      ensures b == BundleOrNew(old(bundle))
      ensures bundle == Some(b)
      ensures old(bundle).Some? ==> bundle == old(bundle)
    {
      if bundle.Some? {
        b := bundle.value;
      } else {
        b := Bundle(0.0, 0);
        bundle := Some(b);
      }
    }

    /** `getOrCreateTransaction`: keyed by the transaction hash; the first event's block is kept. */
    method GetOrCreateTransaction(ev: EventMeta) returns (t: Transaction)
      modifies this`transactions
      ensures t == TransactionOrNew(old(transactions), ev)
      ensures transactions == old(transactions)[ev.txHash := t]
      ensures ev.txHash in old(transactions) ==> transactions == old(transactions)
    {
      if ev.txHash in transactions {
        t := transactions[ev.txHash];
      } else {
        t := Transaction(ev.blockNumber, ev.timestamp);
        transactions := transactions[ev.txHash := t];
      }
    }
  }

  predicate DayBucketsKeyed(dayData: map<BucketKey, PoolDayData>)
  {
    forall k :: k in dayData ==> dayData[k].pool == k.pool && dayData[k].date == k.index * 86400
  }

  predicate HourBucketsKeyed(hourData: map<BucketKey, PoolHourData>)
  {
    forall k :: k in hourData ==> hourData[k].pool == k.pool && hourData[k].periodStartTimestamp == k.index * 3600
  }

  predicate StakedMatchesSupply(gauges: map<Address, Gauge>)
  {
    forall g :: g in gauges ==> gauges[g].totalStaked == gauges[g].totalSupply
  }

  predicate PositionOwnersKnown(positions: map<int, Position>, users: map<Address, User>)
  {
    forall t :: t in positions ==> positions[t].owner in users
  }

  predicate VeNFTOwnersKnown(veNFTs: map<int, VeNFT>, users: map<Address, User>)
  {
    forall t :: t in veNFTs ==> veNFTs[t].owner in users
  }

  /** Saving a day bucket under the key its pool and start time give keeps every bucket keyed. */
  lemma DayBucketsAfterPut(dayData: map<BucketKey, PoolDayData>, k: BucketKey, d: PoolDayData)
    requires DayBucketsKeyed(dayData) && d.pool == k.pool && d.date == k.index * 86400
    ensures DayBucketsKeyed(dayData[k := d])
  {
  }

  /** The same for hour buckets. */
  lemma HourBucketsAfterPut(hourData: map<BucketKey, PoolHourData>, k: BucketKey, h: PoolHourData)
    requires HourBucketsKeyed(hourData) && h.pool == k.pool && h.periodStartTimestamp == k.index * 3600
    ensures HourBucketsKeyed(hourData[k := h])
  {
  }

  /** Registering more users keeps every owner registered. */
  lemma OwnersKnownAfterGrowth(positions: map<int, Position>, veNFTs: map<int, VeNFT>,
                               users: map<Address, User>, users': map<Address, User>)
    requires PositionOwnersKnown(positions, users) && VeNFTOwnersKnown(veNFTs, users)
    requires users.Keys <= users'.Keys
    ensures PositionOwnersKnown(positions, users') && VeNFTOwnersKnown(veNFTs, users')
  {
  }

  /** Saving a position whose owner is registered keeps every position owner registered. */
  lemma PositionOwnersAfterPut(positions: map<int, Position>, users: map<Address, User>, k: int, p: Position)
    requires PositionOwnersKnown(positions, users) && p.owner in users
    ensures PositionOwnersKnown(positions[k := p], users)
  {
  }

  /** Saving a veNFT whose owner is registered keeps every veNFT owner registered. */
  lemma VeNFTOwnersAfterPut(veNFTs: map<int, VeNFT>, users: map<Address, User>, k: int, v: VeNFT)
    requires VeNFTOwnersKnown(veNFTs, users) && v.owner in users
    ensures VeNFTOwnersKnown(veNFTs[k := v], users)
  {
  }

  /** The stored user, or a new one with zero positions, zero veNFTs and nothing swapped. */
  function UserOrNew(users: map<Address, User>, address: Address): (u: User)
    ensures address in users ==> u == users[address]
    ensures address !in users ==> u.totalPositions == 0 && u.totalVeNFTs == 0 && u.usdSwapped == 0.0
  {
    if address in users then users[address] else User(0, 0, 0.0)
  }

  /** The stored bundle, or a new one whose `ethPrice` is zero. */
  function BundleOrNew(bundle: Option<Bundle>): (b: Bundle)
    ensures bundle.Some? ==> b == bundle.value
    ensures bundle.None? ==> b.ethPrice == 0.0 && b.lastUpdated == 0
  {
    if bundle.Some? then bundle.value else Bundle(0.0, 0)
  }

  /** The stored transaction, or one stamped with this event's block. */
  function TransactionOrNew(transactions: map<string, Transaction>, ev: EventMeta): (t: Transaction)
    ensures ev.txHash in transactions ==> t == transactions[ev.txHash]
    ensures ev.txHash !in transactions ==> t.blockNumber == ev.blockNumber && t.timestamp == ev.timestamp
  {
    if ev.txHash in transactions then transactions[ev.txHash] else Transaction(ev.blockNumber, ev.timestamp)
  }

  /** Get-or-create is idempotent: a second call finds what the first one saved. */
  lemma GetOrCreateIdempotent(users: map<Address, User>, address: Address,
                              bundle: Option<Bundle>,
                              transactions: map<string, Transaction>, ev: EventMeta, later: EventMeta)
    requires later.txHash == ev.txHash
    ensures var u := UserOrNew(users, address);
            UserOrNew(users[address := u], address) == u
    ensures BundleOrNew(Some(BundleOrNew(bundle))) == BundleOrNew(bundle)
    ensures var t := TransactionOrNew(transactions, ev);
            TransactionOrNew(transactions[ev.txHash := t], later) == t
  {
  }

  /** The two per-user counters that NFT transfers move: `totalPositions` and `totalVeNFTs`. */
  datatype Counter = PositionsHeld | VeNFTsHeld

  function CountOf(u: User, c: Counter): int
  {
    match c
    case PositionsHeld => u.totalPositions
    case VeNFTsHeld => u.totalVeNFTs
  }

  function WithCount(u: User, c: Counter, v: int): (u': User)
    ensures CountOf(u', c) == v
    ensures forall other: Counter :: other != c ==> CountOf(u', other) == CountOf(u, other)
    ensures u'.usdSwapped == u.usdSwapped
  {
    match c
    case PositionsHeld => u.(totalPositions := v)
    case VeNFTsHeld => u.(totalVeNFTs := v)
  }

  /**
   * An NFT transfer's effect on users: the old owner, when stored, loses one;
   * then the new owner (created with zero counters if needed) gains one.
   */
  function MoveOne(users: map<Address, User>, c: Counter, from: Address, to: Address): (r: map<Address, User>)
    ensures r.Keys == users.Keys + {to}
    ensures to != from ==> CountOf(r[to], c) == CountOf(UserOrNew(users, to), c) + 1
    ensures from in users && to != from ==> CountOf(r[from], c) == CountOf(users[from], c) - 1
    ensures forall a :: a in users && a != from && a != to ==> r[a] == users[a]
  {
    var dec := if from in users then users[from := WithCount(users[from], c, CountOf(users[from], c) - 1)] else users;
    var newOwner := UserOrNew(dec, to);
    dec[to := WithCount(newOwner, c, CountOf(newOwner, c) + 1)]
  }

  /**
   * One user's counter changed by `delta` (a missing user is created with zero
   * counters first): a veNFT deposit (+1) or withdrawal (-1).
   */
  function Bumped(users: map<Address, User>, c: Counter, a: Address, delta: int): (r: map<Address, User>)
    ensures r.Keys == users.Keys + {a}
    ensures CountOf(r[a], c) == CountOf(UserOrNew(users, a), c) + delta
    ensures forall other: Counter :: other != c ==> CountOf(r[a], other) == CountOf(UserOrNew(users, a), other)
    ensures forall b :: b in users && b != a ==> r[b] == users[b]
  {
    var u := UserOrNew(users, a);
    users[a := WithCount(u, c, CountOf(u, c) + delta)]
  }

  /** Changing one counter by `delta` changes the total over all users by exactly `delta`. */
  lemma BumpedSum(users: map<Address, User>, c: Counter, a: Address, delta: int)
    ensures MapSum.SumValues(Counts(Bumped(users, c, a, delta), c)) == MapSum.SumValues(Counts(users, c)) + delta
  {
    var before := CountOf(UserOrNew(users, a), c);
    BumpedCounts(users, c, a, delta);
    CountsKeys(users, c);
    MapSum.SumAfterBump(Counts(users, c), Counts(Bumped(users, c, a, delta), c), a, before, delta);
  }

  /** The counter map after a bump is the old one with a single entry replaced. */
  lemma BumpedCounts(users: map<Address, User>, c: Counter, a: Address, delta: int)
    ensures Counts(Bumped(users, c, a, delta), c) == Counts(users, c)[a := CountOf(UserOrNew(users, a), c) + delta]
  {
    var r := Bumped(users, c, a, delta);
    var updated := Counts(users, c)[a := CountOf(UserOrNew(users, a), c) + delta];
    CountsKeys(r, c);
    CountsKeys(users, c);
    forall b | b in updated
      ensures Counts(r, c)[b] == updated[b]
    {
      if b != a {
        assert r[b] == users[b];
      }
    }
    SameEntries(Counts(r, c), updated);
  }

  /** One counter of every user, as a map the sum can range over. */
  ghost function Counts(users: map<Address, User>, c: Counter): map<Address, int>
  {
    map a | a in users :: CountOf(users[a], c)
  }

  /** A transfer from a stored owner keeps the total over all users (self-transfers included). */
  lemma MoveOneKeepsTotal(users: map<Address, User>, c: Counter, from: Address, to: Address)
    requires from in users
    ensures MapSum.SumValues(Counts(MoveOne(users, c, from, to), c)) == MapSum.SumValues(Counts(users, c))
  {
    CountsAfterMove(users, c, from, to);
    MoveOneKeepsSum(Counts(users, c), from, to);
  }

  /** The counter map after a move is the old one with `from` lowered and `to` raised by one. */
  lemma CountsAfterMove(users: map<Address, User>, c: Counter, from: Address, to: Address)
    requires from in users
    ensures Counts(MoveOne(users, c, from, to), c) == MovedCount(Counts(users, c), from, to)
  {
    var counts := Counts(users, c);
    var inc := MovedCount(counts, from, to);
    var moved := MoveOne(users, c, from, to);
    var counted := Counts(moved, c);
    CountsKeys(moved, c);
    CountsKeys(users, c);
    assert counted.Keys == inc.Keys;
    forall a | a in inc
      ensures counted[a] == inc[a]
    {
      if a == to {
        MoveOneTarget(users, c, from, to);
      } else if a == from {
        assert CountOf(moved[from], c) == counts[from] - 1;
      } else {
        assert moved[a] == users[a];
      }
    }
    SameEntries(counted, inc);
  }

  lemma CountsKeys(users: map<Address, User>, c: Counter)
    ensures Counts(users, c).Keys == users.Keys
  {
  }

  /** Map extensionality, stated once for counter maps. */
  lemma SameEntries(m1: map<Address, int>, m2: map<Address, int>)
    requires m1.Keys == m2.Keys
    requires forall a :: a in m2 ==> m1[a] == m2[a]
    ensures m1 == m2
  {
  }

  /** The new owner's counter after a move, self-transfers included. */
  lemma MoveOneTarget(users: map<Address, User>, c: Counter, from: Address, to: Address)
    requires from in users
    ensures CountOf(MoveOne(users, c, from, to)[to], c)
         == (if to == from then CountOf(users[from], c) else CountOf(UserOrNew(users, to), c) + 1)
  {
  }

  /** A self-transfer by a stored owner leaves every user as it was. */
  lemma SelfMoveIsIdentity(users: map<Address, User>, c: Counter, a: Address)
    requires a in users
    ensures MoveOne(users, c, a, a) == users
  {
    var u := users[a];
    var dec := users[a := WithCount(u, c, CountOf(u, c) - 1)];
    assert WithCount(WithCount(u, c, CountOf(u, c) - 1), c, CountOf(u, c)) == u by {
      match c
      case PositionsHeld =>
      case VeNFTsHeld =>
    }
  }
  /** One unit taken from `from` and given to `to` (a missing `to` starts at zero). */
  function MovedCount(counts: map<Address, int>, from: Address, to: Address): map<Address, int>
    requires from in counts
  {
    var dec := counts[from := counts[from] - 1];
    dec[to := (if to in dec then dec[to] else 0) + 1]
  }

  /** Moving one unit between two entries keeps the sum. */
  lemma MoveOneKeepsSum(counts: map<Address, int>, from: Address, to: Address)
    requires from in counts
    ensures MapSum.SumValues(MovedCount(counts, from, to)) == MapSum.SumValues(counts)
  {
    var dec := counts[from := counts[from] - 1];
    MapSum.SumUpdate(counts, from, counts[from] - 1);
    MapSum.SumUpdate(dec, to, (if to in dec then dec[to] else 0) + 1);
  }
}
