/**
  32-bit unsigned words. Every counter of the engine (ring heads and tails, the
  round-robin cursor, sequence numbers, gate values) is a uint32_t. The models keep
  the unbounded count a counter stands for and let the code see only its word, so a
  test that is wrong after a wrap-around is wrong in the model too.
 */
module Words {

  const WRAP: int := 0x1_0000_0000
  const HALF: int := 0x8000_0000

  // The uint32_t holding the count x.
  function Word(x: nat): nat {
    x % WRAP
  }

  // Unsigned subtraction of two words.
  function WordSub(a: nat, b: nat): nat {
    (a - b) % WRAP
  }

  // (int32_t)(a - b) < 0
  predicate CyclicBefore(a: nat, b: nat) {
    WordSub(a, b) >= HALF
  }

  lemma WordSubIsDistance(a: nat, b: nat)
    requires b <= a < b + WRAP
    ensures WordSub(Word(a), Word(b)) == a - b
  {
    WordSubOf(a, b);
  }

  // Subtracting words loses exactly the multiples of 2^32 in the difference of the counts.
  lemma WordSubOf(a: nat, b: nat)
    ensures WordSub(Word(a), Word(b)) == (a - b) % WRAP
  {
    var qa, qb := a / WRAP, b / WRAP;
    assert a == qa * WRAP + Word(a) && b == qb * WRAP + Word(b);
    assert a - b == (Word(a) - Word(b)) + (qa - qb) * WRAP;
    ModAddMultiple(Word(a) - Word(b), qa - qb);
  }

  lemma ModAddMultiple(x: int, k: int)
    ensures (x + k * WRAP) % WRAP == x % WRAP
  {
    var q, r := x / WRAP, x % WRAP;
    assert x + k * WRAP == (q + k) * WRAP + r;
  }

  lemma WordEqIsEq(a: nat, b: nat)
    requires -WRAP < a - b < WRAP
    ensures Word(a) == Word(b) <==> a == b
  {
    if a != b && Word(a) == Word(b) {
      WordSubOf(a, b);
      WordSubOf(b, a);
      assert false;
    }
  }

  /**
    When the signed 32-bit comparison can be trusted, and when not: for a gate g that
    trails the target t by at most 2^32, "not before" holds if the target is reached,
    and also, wrongly, as soon as the gate trails by more than 2^31.
   */
  lemma CyclicTestExact(g: nat, t: nat)
    requires g <= t <= g + WRAP
    ensures CyclicBefore(Word(g), Word(t)) <==> 0 < t - g <= HALF
  {
    WordSubOf(g, t);
    var d := t - g;
    if 0 < d < WRAP {
      assert g - t == -1 * WRAP + (WRAP - d);
      ModAddMultiple(WRAP - d, -1);
      assert (g - t) % WRAP == WRAP - d;
    } else if d == WRAP {
      assert (g - t) % WRAP == 0 by { ModAddMultiple(0, -1); }
    }
  }

  // Within half the number circle of each other, words compare like the counts.
  lemma CyclicAgrees(g: nat, t: nat)
    requires -HALF <= g - t < HALF
    ensures CyclicBefore(Word(g), Word(t)) <==> g < t
  {
    if g <= t {
      CyclicTestExact(g, t);
    } else {
      WordSubOf(g, t);
    }
  }

  // A ring index computed from the word is the index computed from the count.
  lemma WordMask(x: nat, ring: nat)
    requires ring > 0 && WRAP % ring == 0
    ensures Word(x) % ring == x % ring
  {
    var k := WRAP / ring;
    var q, r := Word(x) / ring, Word(x) % ring;
    assert WRAP == k * ring;
    var c := (x / WRAP) * k + q;
    assert x == (x / WRAP) * WRAP + Word(x);
    assert (x / WRAP) * (k * ring) == ((x / WRAP) * k) * ring;
    assert x == c * ring + r;
    QuotientUnique(x, ring, c, r);
  }

  lemma QuotientUnique(x: int, m: int, c: int, r: int)
    requires m > 0 && x == c * m + r && 0 <= r < m
    ensures x / m == c && x % m == r
  {
    var d := x / m - c;
    assert x % m - r == -(d * m);
  }
}
