/** The mining loop of one miner. The hash function, the dump of a coin, the
    clock and the random generator belong to the environment. */
module CoinsMiners {
  import opened CoinChain

  datatype Field = Text(text: string) | Digest(hash: Hash) | Time(seconds: int)

  /** A coin is a JSON object; the miner fills in the entry named miner. */
  datatype Coin = Coin(miner: map<string, Field>, payload: string)

  datatype Mined = Stopped | Found(coin: Coin)

  const ADDED := {"hash", "starter", "mined"}

  /** The coin without the three fields that mining adds. */
  function Unmined(coin: Coin): Coin {
    coin.(miner := coin.miner - ADDED)
  }

  function Complete(coin: Coin, hash: Hash, starter: string, mined: int): Coin {
    coin.(miner := coin.miner["hash" := Digest(hash)]["starter" := Text(starter)]["mined" := Time(mined)])
  }

  /** What was hashed can be had back from the result exactly if the input did
      not have any of the added fields. */
  lemma UnminedExact(coin: Coin, hash: Hash, starter: string, mined: int)
    ensures Unmined(Complete(coin, hash, starter, mined)) == coin <==> coin.miner.Keys !! ADDED
  {
    var r := Complete(coin, hash, starter, mined);
    assert Unmined(r).miner.Keys == coin.miner.Keys - ADDED;
    if coin.miner.Keys !! ADDED {
      assert coin.miner.Keys - ADDED == coin.miner.Keys;
      assert forall k :: k in coin.miner ==> r.miner[k] == coin.miner[k];
      assert Unmined(r).miner == coin.miner;
    }
  }

  function Decimal(n: nat): string {
    if n < 10 then [DIGITS[n]] else Decimal(n / 10) + [DIGITS[n % 10]]
  }

  function DigitValue(c: char): nat {
    if '0' <= c <= '9' then (c as int - '0' as int) else 0
  }

  function Parse(text: string): nat {
    if text == "" then 0 else 10 * Parse(text[..|text|-1]) + DigitValue(text[|text|-1])
  }

  /** A counter can be read back, so different counters give different texts. */
  lemma {:induction false} DecimalParses(n: nat)
    ensures Decimal(n) != "" && Parse(Decimal(n)) == n
    ensures forall i :: 0 <= i < |Decimal(n)| ==> Decimal(n)[i] in DIGITS
  {
    DigitRead(n % 10);
    if n >= 10 {
      DecimalParses(n / 10);
      var text := Decimal(n);
      assert text[..|text|-1] == Decimal(n / 10);
    } else {
      assert Decimal(n)[..0] == "";
    }
  }

  lemma DigitRead(d: nat)
    requires d < 10
    ensures DigitValue(DIGITS[d]) == d
  {
  }

  const DIGITS := "0123456789"
  const ALPHABET := "ABCDEFGHIJKLMNOPQRSTUVWXYZabcdefghijklmnopqrstuvwxyz0123456789"

  /** A starter, a counter up to the limit and the dump of the coin. */
  ghost predicate Attempt(text: string, dataDump: string, starterLength: nat, starterLimit: nat) {
    exists prefix, on: nat :: IsAttempt(text, dataDump, starterLength, starterLimit, prefix, on)
  }

  ghost predicate IsAttempt(text: string, dataDump: string, starterLength: nat, starterLimit: nat,
      prefix: string, on: nat)
  {
    |prefix| == starterLength + 1 && on <= starterLimit && text == prefix + Decimal(on) + dataDump
  }

  class CoinsMiner {
    const simplification: nat
    const starterLength: nat
    const starterLimit: nat
    const maxMiningCounts: nat

    var miningStarted: int
    var miningCounts: nat

    /** The texts hashed so far. */
    var checks: seq<string>

    ghost predicate Valid() {
      1 <= simplification <= 10
    }

    constructor (simplification: nat, starterLength: nat, starterLimit: nat, maxMiningCounts: nat)
      requires 1 <= simplification <= 10
      ensures Valid() && miningCounts == 0 && checks == [] && miningStarted < 0
      ensures this.simplification == simplification && this.starterLength == starterLength
      ensures this.starterLimit == starterLimit && this.maxMiningCounts == maxMiningCounts
    {
      this.simplification, this.starterLength := simplification, starterLength;
      this.starterLimit, this.maxMiningCounts := starterLimit, maxMiningCounts;
      miningStarted, miningCounts, checks := -1, 0, [];
    }

    /** Mining may be stopped from outside or run out of time at any moment. */
    method StopMarker() returns (stop: bool)
      modifies `miningCounts
      ensures stop ==> miningCounts == old(miningCounts)
      ensures !stop ==> old(miningCounts) < maxMiningCounts && miningCounts == old(miningCounts) + 1
    {
      if miningStarted < 0 {
        return true;
      }
      if miningCounts >= maxMiningCounts {
        return true;
      }
      var interruptedOrLate: bool := *;
      if interruptedOrLate {
        return true;
      }
      miningCounts := miningCounts + 1;
      return false;
    }

    /** Random letters and digits, and an underscore. */
    method BuildStarter(length: nat) returns (starter: string)
      ensures |starter| == length + 1 && starter[length] == '_'
      ensures forall i :: 0 <= i < length ==> starter[i] in ALPHABET
    {
      starter := "";
      while |starter| < length
        invariant |starter| <= length && forall i :: 0 <= i < |starter| ==> starter[i] in ALPHABET
      {
        var k :| 0 <= k < |ALPHABET|;
        starter := starter + [ALPHABET[k]];
      }
      starter := starter + "_";
    }

    method GetHashComplexity(hexdigest: Hash) returns (complexity: nat)
      ensures complexity == Complexity(hexdigest, simplification)
    {
      complexity := 0;
      while complexity < |hexdigest|
        invariant complexity <= |hexdigest| && forall i :: 0 <= i < complexity ==> hexdigest[i] < simplification
      {
        if hexdigest[complexity] < simplification {
          complexity := complexity + 1;
        } else {
          break;
        }
      }
      ComplexityExact(hexdigest, simplification, complexity);
    }

    method GetHashDifficulty(hexdigest: Hash) returns (difficulty: nat)
      requires Valid()
      ensures difficulty == Difficulty(hexdigest, simplification)
    {
      var next := 0;
      assert Repeats(hexdigest, 0, 0);
      while true
        invariant next > 0 ==> Uniform(hexdigest, simplification, next - 1)
        invariant next <= |hexdigest| + 1
        decreases |hexdigest| + 1 - next
      {
        var ok := false;
        var simpl := 0;
        while simpl < simplification && !ok
          invariant simpl <= simplification
          invariant ok <==> exists d: nat :: d < simpl && Repeats(hexdigest, d, next)
        {
          ok := StartsWith(hexdigest, simpl, next);
          simpl := simpl + 1;
        }
        assert ok <==> Uniform(hexdigest, simplification, next);
        if ok {
          next := next + 1;
        } else {
          break;
        }
      }
      difficulty := next - 1;
      DifficultyUnique(hexdigest, simplification, difficulty);
    }

    /** str.startswith for a repeated digit. */
    static method StartsWith(hexdigest: Hash, digit: nat, times: nat) returns (r: bool)
      ensures r == Repeats(hexdigest, digit, times)
    {
      if times > |hexdigest| {
        return false;
      }
      for i := 0 to times
        invariant forall j :: 0 <= j < i ==> hexdigest[j] == digit
      {
        if hexdigest[i] != digit {
          return false;
        }
      }
      return true;
    }

    /** The loop ends after at most maxMiningCounts - miningCounts hashes, each of
        a starter, a counter within its limit and the dump of the coin. A coin it
        returns has exactly the demanded complexity, found last of all; if it
        stops, no hash was good enough. */
    method Mine(hash: string -> Hash, dump: Coin -> string, coin: Coin, demand: nat)
      returns (r: Mined, ghost prefix: string, ghost on: nat)
      requires Valid()
      modifies `miningCounts, `checks
      ensures |checks| - |old(checks)| == miningCounts - old(miningCounts)
      ensures miningCounts <= if old(miningCounts) < maxMiningCounts then maxMiningCounts else old(miningCounts)
      ensures old(checks) <= checks
      ensures forall k :: |old(checks)| <= k < |checks| && (r.Stopped? || k < |checks| - 1) ==>
                Complexity(hash(checks[k]), simplification) != demand
      ensures forall k :: |old(checks)| <= k < |checks| ==> Attempt(checks[k], dump(coin), starterLength, starterLimit)
      ensures r.Found? ==>
        && checks != old(checks) && checks[|checks|-1] == prefix + Decimal(on) + dump(coin)
        && on <= starterLimit && |prefix| == starterLength + 1
        && (var h := hash(prefix + Decimal(on) + dump(coin));
            Complexity(h, simplification) == demand
            && exists mined :: r.coin == Complete(coin, h, prefix + Decimal(on), mined))
    {
      var dataDump := dump(coin);
      var starter := BuildStarter(starterLength);
      var counter := 0;
      prefix, on := starter, 0;
      while true
        invariant |checks| - |old(checks)| == miningCounts - old(miningCounts) >= 0
        invariant miningCounts <= if old(miningCounts) < maxMiningCounts then maxMiningCounts else old(miningCounts)
        invariant old(checks) <= checks
        invariant forall k :: |old(checks)| <= k < |checks| ==> Complexity(hash(checks[k]), simplification) != demand
        invariant forall k :: |old(checks)| <= k < |checks| ==>
          Attempt(checks[k], dataDump, starterLength, starterLimit)
        invariant counter <= starterLimit && |starter| == starterLength + 1
        decreases maxMiningCounts - miningCounts
      {
        var stop := StopMarker();
        if stop {
          return Stopped, prefix, on;
        }
        prefix, on := starter, counter;
        var check := starter + Decimal(counter);
        check := check + dataDump;
        var hexdigest := hash(check);
        assert IsAttempt(check, dataDump, starterLength, starterLimit, starter, counter);
        checks := checks + [check];
        var complexity := GetHashComplexity(hexdigest);
        if demand == complexity {
          var mined: int := *;
          r := Found(Complete(coin, hexdigest, starter + Decimal(counter), mined));
          return;
        }
        counter := counter + 1;
        if counter > starterLimit {
          starter := BuildStarter(starterLength);
          counter := 0;
        }
      }
    }

    /** The entry point: the complexity demanded follows from the last hash. */
    method Start(hash: string -> Hash, dump: Coin -> string, coin: Coin, me: string) returns (r: Mined)
      requires Valid() && "prev" in coin.miner && coin.miner["prev"].Digest?
      modifies `miningCounts, `checks
      ensures r.Found? ==>
        && r.coin.miner.Keys == coin.miner.Keys + ADDED + {"idurl"}
        && r.coin.miner["hash"].Digest? && r.coin.miner["starter"].Text?
        && r.coin.miner["prev"] == coin.miner["prev"] && r.coin.payload == coin.payload
        && r.coin.miner["idurl"] == Text(me)
        && (forall k :: k in coin.miner && k !in ADDED && k != "idurl" ==> r.coin.miner[k] == coin.miner[k])
        && Complexity(r.coin.miner["hash"].hash, simplification) == Demand(coin.miner["prev"].hash, simplification)
      ensures r.Found? && coin.miner.Keys !! ADDED ==>
        r.coin.miner["hash"].hash == hash(r.coin.miner["starter"].text + dump(Unmined(r.coin)))
    {
      var own := coin.(miner := coin.miner["idurl" := Text(me)]);
      var prevHash := own.miner["prev"].hash;
      var difficulty := GetHashDifficulty(prevHash);
      var complexity := GetHashComplexity(prevHash);
      if difficulty == complexity {
        complexity := complexity + 1;
      }
      ghost var prefix, on;
      r, prefix, on := Mine(hash, dump, own, complexity);
      if r.Found? {
        var h, starter := r.coin.miner["hash"].hash, r.coin.miner["starter"].text;
        UnminedExact(own, h, starter, r.coin.miner["mined"].seconds);
      }
    }
  }
}
