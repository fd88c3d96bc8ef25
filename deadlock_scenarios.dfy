/**
 * The sequential content of `DeadlockScenarios`: the arithmetic of
 * `BankAccount.transfer` (on Java's 32-bit `int`, which wraps around), the
 * two transfers of `main`, and the table that `DiningPhilosophers` lays out:
 * `n` forks, `n` philosophers, philosopher `i` between fork `i` and fork
 * `(i + 1) % n`. The locks themselves, and the deadlocks they demonstrate,
 * are not part of this module.
 */
module DeadlockScenarios {

  const TwoTo32: int := 0x1_0000_0000
  const MinInt: int := -0x8000_0000
  const MaxInt: int := 0x7fff_ffff

  /** `x` fits in a Java `int`. */
  predicate IsInt(x: int)
  {
    MinInt <= x <= MaxInt
  }

  /** The Java `int` that arithmetic yielding `x` produces: `x` reduced modulo 2^32 into the int range. */
  function Wrap(x: int): (r: int)
    ensures IsInt(r)
    ensures (x - r) % TwoTo32 == 0
    ensures IsInt(x) ==> r == x
  {
    (x - MinInt) % TwoTo32 + MinInt
  }

  /** Two values that differ by a multiple of 2^32 wrap to the same int. */
  lemma WrapCongruent(x: int, y: int)
    requires (x - y) % TwoTo32 == 0
    ensures Wrap(x) == Wrap(y)
  {
    var q := (x - y) / TwoTo32;
    assert x - MinInt == (y - MinInt) + q * TwoTo32;
    ModShift(y - MinInt, q);
  }

  lemma ModShift(z: int, q: int)
    ensures (z + q * TwoTo32) % TwoTo32 == z % TwoTo32
  {
    var m := z % TwoTo32;
    var d := z / TwoTo32;
    assert z + q * TwoTo32 == (d + q) * TwoTo32 + m;
  }

  /** The balances of two distinct accounts after `transfer(to, amount)`: `this.balance -= amount; to.balance += amount`. */
  function Transferred(from: int, to: int, amount: int): (r: (int, int))
    ensures IsInt(r.0) && IsInt(r.1)
    ensures (r.0 - (from - amount)) % TwoTo32 == 0 && (r.1 - (to + amount)) % TwoTo32 == 0
  {
    (Wrap(from - amount), Wrap(to + amount))
  }

  /** Money is neither made nor lost by a transfer, even when an int overflows. */
  lemma TransferConservesTotal(from: int, to: int, amount: int)
    ensures var (f, t) := Transferred(from, to, amount);
            Wrap(f + t) == Wrap(from + to)
  {
    var (f, t) := Transferred(from, to, amount);
    assert ((f + t) - (from + to)) % TwoTo32 == 0 by {
      var a := (f - (from - amount)) / TwoTo32;
      var b := (t - (to + amount)) / TwoTo32;
      assert f == from - amount + a * TwoTo32;
      assert t == to + amount + b * TwoTo32;
      ModShift(0, a + b);
      assert (f + t) - (from + to) == 0 + (a + b) * TwoTo32;
    }
    WrapCongruent(f + t, from + to);
  }

  /** Without overflow a transfer moves exactly `amount`, and the exact sum is unchanged. */
  lemma TransferIsExactWithoutOverflow(from: int, to: int, amount: int)
    requires IsInt(from - amount) && IsInt(to + amount)
    ensures Transferred(from, to, amount) == (from - amount, to + amount)
    ensures Transferred(from, to, amount).0 + Transferred(from, to, amount).1 == from + to
  {
  }

  /** There is no funds check: an account can be overdrawn. */
  lemma TransferCanOverdraw()
    ensures Transferred(300, 1000, 500) == (-200, 1500)
  {
  }

  /** A transfer from an account to itself: the reentrant monitor lets both updates run, and they cancel out. */
  lemma SelfTransferCancels(balance: int, amount: int)
    requires IsInt(balance)
    ensures Wrap(Wrap(balance - amount) + amount) == balance
  {
    var w := Wrap(balance - amount);
    assert ((w + amount) - balance) % TwoTo32 == 0 by {
      var a := (w - (balance - amount)) / TwoTo32;
      assert w == balance - amount + a * TwoTo32;
      ModShift(0, a);
      assert (w + amount) - balance == 0 + a * TwoTo32;
    }
    WrapCongruent(w + amount, balance);
  }

  class BankAccount {
    var balance: int
    const id: int

    constructor (id: int, balance: int)
      requires IsInt(id) && IsInt(balance)
      ensures this.id == id && this.balance == balance
    {
      this.id := id;
      this.balance := balance;
    }

    /**
     * `transfer(to, amount)`. `sleepInterrupted` says whether the sleep
     * inside the first monitor is interrupted; the catch only prints, so
     * the transfer goes ahead either way.
     */
    method Transfer(to: BankAccount, amount: int, sleepInterrupted: bool)
      requires IsInt(amount) && IsInt(balance) && IsInt(to.balance)
      modifies this, to
      ensures IsInt(balance) && IsInt(to.balance)
      ensures to != this ==> (balance, to.balance) == Transferred(old(balance), old(to.balance), amount)
      ensures to == this ==> balance == old(balance)
      ensures Wrap(balance + to.balance) == Wrap(old(balance) + old(to.balance))
    {
      balance := Wrap(balance - amount);
      to.balance := Wrap(to.balance + amount);
      if to == this {
        SelfTransferCancels(old(balance), amount);
      } else {
        TransferConservesTotal(old(balance), old(to.balance), amount);
      }
    }
  }

  /**
   * `main`'s two transfers, 500 from account 1 to account 2 and 300 back,
   * each under both monitors: whichever completes first, the accounts end
   * at 800 and 1200.
   */
  method MainTransfers(oneToTwoFirst: bool) returns (balance1: int, balance2: int)
    ensures balance1 == 800 && balance2 == 1200
    ensures balance1 + balance2 == 2000
  {
    var account1 := new BankAccount(1, 1000);
    var account2 := new BankAccount(2, 1000);
    if oneToTwoFirst {
      account1.Transfer(account2, 500, false);
      TransferIsExactWithoutOverflow(1000, 1000, 500);
      account2.Transfer(account1, 300, false);
      TransferIsExactWithoutOverflow(1500, 500, 300);
    } else {
      account2.Transfer(account1, 300, false);
      TransferIsExactWithoutOverflow(1000, 1000, 300);
      account1.Transfer(account2, 500, false);
      TransferIsExactWithoutOverflow(1300, 700, 500);
    }
    balance1, balance2 := account1.balance, account2.balance;
  }

  /** A fork: a bare object whose monitor a philosopher holds while eating. */
  class Fork {
    constructor ()
    {
    }
  }

  /** The thread of one philosopher, which runs `dine(seat)`. */
  class Philosopher {
    const seat: nat

    constructor (seat: nat)
      ensures this.seat == seat
    {
      this.seat := seat;
    }
  }

  /** The index of philosopher `seat`'s right fork: `(seat + 1) % n`, the next seat round the table. */
  function RightFork(seat: nat, n: nat): (r: nat)
    requires seat < n
    ensures r < n
    ensures seat + 1 < n ==> r == seat + 1
    ensures seat + 1 == n ==> r == 0
  {
    (seat + 1) % n
  }

  /** The seat to the left of `seat`, whose right fork is fork `seat`. */
  function LeftNeighbour(seat: nat, n: nat): (r: nat)
    requires seat < n
    ensures r < n && RightFork(r, n) == seat
  {
    if seat == 0 then n - 1 else seat - 1
  }

  /**
   * Every fork is shared by exactly the two philosophers beside it: fork `k`
   * is the left fork of philosopher `k` and the right fork of exactly one
   * philosopher, the one before `k`. With two or more philosophers those are
   * different people; alone, a philosopher holds fork 0 as both forks.
   */
  lemma ForkHasTwoUsers(k: nat, n: nat)
    requires k < n
    ensures forall s :: 0 <= s < n ==> (RightFork(s, n) == k <==> s == LeftNeighbour(k, n))
    ensures n >= 2 ==> LeftNeighbour(k, n) != k
    ensures n == 1 ==> RightFork(k, n) == k
  {
    forall s | 0 <= s < n
      ensures RightFork(s, n) == k <==> s == LeftNeighbour(k, n)
    {
      if s + 1 < n {
        assert RightFork(s, n) == s + 1;
      } else {
        assert RightFork(s, n) == 0;
      }
    }
  }

  class DiningPhilosophers {
    var forks: array<Fork?>
    var philosophers: array<Philosopher?>

    /** One fork and one philosopher per seat, every fork its own object, philosopher `i` in seat `i`. */
    ghost predicate Valid()
      reads this, forks, philosophers
    {
      && forks.Length == philosophers.Length
      && (forall i :: 0 <= i < forks.Length ==> forks[i] != null)
      && (forall i, j :: 0 <= i < j < forks.Length ==> forks[i] != forks[j])
      && (forall i :: 0 <= i < philosophers.Length ==> philosophers[i] != null && philosophers[i].seat == i)
    }

    /** `new DiningPhilosophers(numPhilosophers)`. */
    constructor (numPhilosophers: nat)
      ensures Valid()
      ensures forks.Length == numPhilosophers && philosophers.Length == numPhilosophers
      ensures fresh(forks) && fresh(philosophers)
    {
      var fs := new Fork?[numPhilosophers];
      var ps := new Philosopher?[numPhilosophers];
      for i := 0 to numPhilosophers
        modifies fs
        invariant forall m :: 0 <= m < i ==> fs[m] != null
        invariant forall m, p :: 0 <= m < p < i ==> fs[m] != fs[p]
      {
        fs[i] := new Fork();
      }
      for i := 0 to numPhilosophers
        modifies ps
        invariant forall m :: 0 <= m < i ==> ps[m] != null && ps[m].seat == m
      {
        ps[i] := new Philosopher(i);
      }
      forks := fs;
      philosophers := ps;
    }

    /** The first two lines of `dine(seat)`: the forks the philosopher in `seat` locks, left then right. */
    method ForksOf(seat: nat) returns (left: Fork, right: Fork)
      requires Valid() && seat < forks.Length
      ensures left == forks[seat] && right == forks[RightFork(seat, forks.Length)]
      ensures forks.Length >= 2 ==> left != right
      ensures forks.Length == 1 ==> left == right
    {
      left := forks[seat];
      right := forks[(seat + 1) % forks.Length];
    }
  }
}
