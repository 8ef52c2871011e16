/** Risk scoring. Floating-point numbers are modelled as reals; the logarithm is any function that is
    zero at one and does not decrease. */
module Risk {
  import opened Common

  datatype Signal = Signal(name: string, category: string, severity: int, confidence: real)

  datatype Level = Normal | Suspicious | HighRisk | Critical {
    function Rank(): int {
      match this
      case Normal => 0
      case Suspicious => 1
      case HighRisk => 2
      case Critical => 3
    }
  }

  function Classify(score: int): Level {
    if score >= 75 then Critical else if score >= 50 then HighRisk else if score >= 25 then Suspicious else Normal
  }

  /** The four bands of risk. */
  lemma {:induction false} BandsAre(score: int)
    ensures Classify(score) == Normal <==> score < 25
    ensures Classify(score) == Suspicious <==> 25 <= score < 50
    ensures Classify(score) == HighRisk <==> 50 <= score < 75
    ensures Classify(score) == Critical <==> 75 <= score
    ensures Normal.Rank() < Suspicious.Rank() < HighRisk.Rank() < Critical.Rank()
  {
  }

  function Multiplier(criticality: int): (m: real)
    ensures 0.7 <= m <= 1.3
  {
    match criticality
    case 1 => 0.7
    case 2 => 0.85
    case 4 => 1.15
    case 5 => 1.3
    case _ => 1.0
  }

  function CategoryWeight(category: string): real {
    match category
    case "malware" => 1.3
    case "data_exfiltration" => 1.4
    case "sql_injection" => 1.15
    case "path_traversal" => 1.1
    case "web_attack" => 1.1
    case "credential_attack" => 1.1
    case "ddos" => 1.2
    case "rate_anomaly" => 0.9
    case "bot" => 0.8
    case "misconfiguration" => 0.8
    case "exposure" => 0.9
    case "waf_block" => 0.7
    case "info" => 0.2
    case _ => 1.0
  }

  function Strength(s: Signal): real {
    s.severity as real * s.confidence * CategoryWeight(s.category) * 10.0
  }

  function Strongest(signals: seq<Signal>): (r: real)
    requires signals != []
    ensures exists s :: s in signals && r == Strength(s)
    ensures forall s :: s in signals ==> Strength(s) <= r
  {
    var last := signals[|signals| - 1];
    assert last in signals;
    if |signals| == 1 then Strength(last)
    else
      var init := signals[..|signals| - 1];
      assert signals == init + [last];
      var rest := Strongest(init);
      if Strength(last) >= rest then Strength(last) else rest
  }

  function Categories(signals: seq<Signal>): set<string> {
    set s | s in signals && s.category != "info" :: s.category
  }

  ghost predicate IsLogarithm(log10: int -> real) {
    log10(1) == 0.0 && forall a, b :: 1 <= a <= b ==> log10(a) <= log10(b)
  }

  function Volume(log10: int -> real, eventCount: int): real {
    var v := 4.0 * log10(Max(1, eventCount));
    if v <= 12.0 then v else 12.0
  }

  /** Rounding halves to the even neighbour. */
  function Round(x: real): int {
    var part := x - x.Floor as real;
    if part < 0.5 || (part == 0.5 && x.Floor % 2 == 0) then x.Floor else x.Floor + 1
  }

  function Clamp01(x: real): real {
    if x < 0.0 then 0.0 else if x > 1.0 then 1.0 else x
  }

  function Evidence(log10: int -> real, signals: seq<Signal>, eventCount: int, succeeded: bool): real
    requires signals != []
  {
    Strongest(signals) + 8.0 * (|Categories(signals)| - 1) as real + Volume(log10, eventCount)
    + if succeeded then 20.0 else 0.0
  }

  /** What is left of the risk when a part of the events was blocked. */
  function Discount(blocked: real): (f: real)
    ensures 0.65 <= f <= 1.0
  {
    1.0 - 0.35 * Clamp01(blocked)
  }

  function Scaled(x: real, multiplier: real, discount: real): real {
    x * multiplier * discount
  }

  function Bounded(x: real): int {
    Max(0, Min(100, Round(x)))
  }

  function Score(log10: int -> real, signals: seq<Signal>, criticality: int, eventCount: int, succeeded: bool,
                 blocked: real): (score: int)
    ensures 0 <= score <= 100
  {
    if signals == [] then 0
    else
      Bounded(Scaled(Evidence(log10, signals, eventCount, succeeded), Multiplier(criticality), Discount(blocked)))
  }

  // ------------------------------------------------------------------ monotony

  lemma {:induction false} RoundIsMonotone(x: real, y: real)
    requires x <= y
    ensures Round(x) <= Round(y)
  {
    if x.Floor != y.Floor {
      assert x.Floor + 1 <= y.Floor;
    }
  }

  lemma {:induction false} FewerCategories(a: seq<Signal>, b: seq<Signal>)
    requires forall s :: s in a ==> s in b
    ensures |Categories(a)| <= |Categories(b)|
  {
    SubsetIsSmaller(Categories(a), Categories(b));
  }

  lemma {:induction false} MoreEvidence(log10: int -> real, a: seq<Signal>, b: seq<Signal>, n: int, m: int, s: bool,
                                        t: bool)
    requires IsLogarithm(log10) && a != [] && b != [] && (forall x :: x in a ==> x in b) && n <= m && (s ==> t)
    ensures Evidence(log10, a, n, s) <= Evidence(log10, b, m, t)
  {
    FewerCategories(a, b);
    assert log10(Max(1, n)) <= log10(Max(1, m));
    var r := Strongest(a);
    var x :| x in a && r == Strength(x);
    assert x in b;
  }

  lemma {:induction false} Times(x: real, y: real, f: real)
    requires x <= y && f >= 0.0
    ensures x * f <= y * f
  {
  }

  lemma {:induction false} TimesBoth(a: real, b: real, c: real, d: real)
    requires 0.0 <= a <= b && 0.0 <= c <= d
    ensures 0.0 <= a * c <= b * d
  {
    Times(a, b, c);
    Times(c, d, b);
  }

  lemma {:induction false} NotPositive(x: real, f: real)
    requires x <= 0.0 && f >= 0.0
    ensures x * f <= 0.0
  {
  }

  lemma {:induction false} ScaledIsMonotone(x: real, y: real, m: real, k: real, f: real, g: real)
    requires x <= y && 0.0 <= m <= k && 0.0 <= f <= g
    ensures Bounded(Scaled(x, m, f)) <= Bounded(Scaled(y, k, g))
  {
    if x <= 0.0 {
      NotPositive(x, m);
      NotPositive(x * m, f);
      RoundIsMonotone(Scaled(x, m, f), 0.0);
    } else {
      TimesBoth(x, y, m, k);
      TimesBoth(x * m, y * k, f, g);
      RoundIsMonotone(Scaled(x, m, f), Scaled(y, k, g));
    }
  }

  /** The score never falls when evidence is added: more signals, more events, an attack that
      succeeded, less of it blocked, or an asset known to be more critical. The order in which signals
      are listed does not matter. */
  lemma {:induction false} ScoreIsMonotone(log10: int -> real, a: seq<Signal>, b: seq<Signal>, c: int, d: int,
                                           n: int, m: int, s: bool, t: bool, blocked: real, less: real)
    requires IsLogarithm(log10) && (forall x :: x in a ==> x in b)
    requires n <= m && (s ==> t) && less <= blocked && (c == d || 1 <= c <= d <= 5)
    ensures Score(log10, a, c, n, s, blocked) <= Score(log10, b, d, m, t, less)
  {
    if a != [] {
      assert a[0] in b;
      MoreEvidence(log10, a, b, n, m, s, t);
      ScaledIsMonotone(Evidence(log10, a, n, s), Evidence(log10, b, m, t), Multiplier(c), Multiplier(d),
                       Discount(blocked), Discount(less));
    }
  }

  lemma {:induction false} RoundPlusSixteen(x: real)
    ensures Round(x + 16.0) == Round(x) + 16
  {
    assert (x + 16.0).Floor == x.Floor + 16;
  }

  /** A flood cannot dominate: whatever the number of events, it adds at most 16 points. */
  lemma {:induction false} FloodAddsLittle(log10: int -> real, signals: seq<Signal>, c: int, n: int, m: int, s: bool,
                                           blocked: real)
    requires IsLogarithm(log10)
    ensures Score(log10, signals, c, m, s, blocked) <= Score(log10, signals, c, n, s, blocked) + 16
  {
    if signals != [] {
      var x, y := Evidence(log10, signals, n, s), Evidence(log10, signals, m, s);
      var k, f := Multiplier(c), Discount(blocked);
      VolumeBounds(log10, n);
      VolumeBounds(log10, m);
      SmallStep(x, y, k, f);
      RoundIsMonotone(Scaled(y, k, f), Scaled(x, k, f) + 16.0);
      RoundPlusSixteen(Scaled(x, k, f));
    }
  }

  lemma {:induction false} VolumeBounds(log10: int -> real, n: int)
    requires IsLogarithm(log10)
    ensures 0.0 <= Volume(log10, n) <= 12.0
  {
    assert log10(1) <= log10(Max(1, n));
  }

  lemma {:induction false} ScaleStep(x: real, y: real, k: real, f: real)
    requires x <= y && 0.0 <= k && 0.0 <= f
    ensures Scaled(x, k, f) <= Scaled(y, k, f)
  {
    Times(x, y, k);
    Times(x * k, y * k, f);
  }

  lemma {:induction false} Distribute(x: real, k: real, f: real)
    ensures Scaled(x + 12.0, k, f) == Scaled(x, k, f) + 12.0 * (k * f)
  {
  }

  lemma {:induction false} SmallStep(x: real, y: real, k: real, f: real)
    requires y - x <= 12.0 && 0.0 <= k <= 1.3 && 0.0 <= f <= 1.0
    ensures Scaled(y, k, f) <= Scaled(x, k, f) + 16.0
  {
    ScaleStep(y, x + 12.0, k, f);
    Distribute(x, k, f);
    TimesBoth(k, 1.3, f, 1.0);
  }

  /** Rounding goes to the nearest whole number, and to the even one of two that are equally near. */
  lemma {:induction false} RoundIsNearest(x: real)
    ensures -0.5 <= Round(x) as real - x <= 0.5
    ensures Round(x) as real - x == 0.5 || Round(x) as real - x == -0.5 ==> Round(x) % 2 == 0
  {
  }

  /** A score is the rounded risk, cut off at 0 and 100. */
  lemma {:induction false} ScoresAreCutOff(x: real)
    ensures x <= 0.0 ==> Bounded(x) == 0
    ensures x >= 100.0 ==> Bounded(x) == 100
    ensures 0.0 <= x <= 100.0 ==> Bounded(x) == Round(x)
  {
    if x <= 0.0 {
      RoundIsMonotone(x, 0.0);
    } else {
      RoundIsMonotone(0.0, x);
    }
    if x >= 100.0 {
      RoundIsMonotone(100.0, x);
    } else {
      RoundIsMonotone(x, 100.0);
    }
  }

  // ------------------------------------------------------------------ scores that are known

  /** How the categories weigh against one another. */
  lemma {:induction false} WeightsAre()
    ensures CategoryWeight("data_exfiltration") == 1.4 && CategoryWeight("malware") == 1.3
    ensures CategoryWeight("ddos") == 1.2 && CategoryWeight("sql_injection") == 1.15
    ensures CategoryWeight("path_traversal") == CategoryWeight("web_attack")
         == CategoryWeight("credential_attack") == 1.1
    ensures CategoryWeight("xss") == CategoryWeight("auth_anomaly") == CategoryWeight("vulnerability") == 1.0
    ensures CategoryWeight("rate_anomaly") == CategoryWeight("exposure") == 0.9
    ensures CategoryWeight("bot") == CategoryWeight("misconfiguration") == 0.8
    ensures CategoryWeight("waf_block") == 0.7 && CategoryWeight("info") == 0.2
  {
  }

  /** One injection attempt: how the asset, a success and blocking at the edge move its score. */
  lemma {:induction false} InjectionScores(log10: int -> real)
    requires IsLogarithm(log10)
    ensures var s := [Signal("event:sqli", "sql_injection", 8, 0.85)];
            && Score(log10, s, 1, 1, false, 0.0) == 55 && Score(log10, s, 2, 1, false, 0.0) == 66
            && Score(log10, s, 3, 1, false, 0.0) == 78 && Score(log10, s, 4, 1, false, 0.0) == 90
            && Score(log10, s, 5, 1, false, 0.0) == 100
            && Score(log10, s, 3, 1, true, 0.0) == 98 && Score(log10, s, 3, 1, false, 1.0) == 51
  {
    var s := Signal("event:sqli", "sql_injection", 8, 0.85);
    OneStrength(log10, s, false);
    OneStrength(log10, s, true);
    assert Strength(s) == 78.2;
  }

  lemma {:induction false} OneStrength(log10: int -> real, s: Signal, succeeded: bool)
    requires IsLogarithm(log10) && s.category != "info"
    ensures Evidence(log10, [s], 1, succeeded) == Strength(s) + if succeeded then 20.0 else 0.0
  {
    assert Categories([s]) == {s.category};
  }

  /** A second category corroborates: two middling signals of different kinds weigh more than one. */
  lemma {:induction false} CorroborationScores(log10: int -> real)
    requires IsLogarithm(log10)
    ensures var a, b := Signal("a", "web_attack", 6, 0.8), Signal("b", "credential_attack", 5, 0.8);
            && Score(log10, [a], 3, 1, false, 0.0) == 53 && Score(log10, [a] + [b], 3, 1, false, 0.0) == 61
  {
    var a, b := Signal("a", "web_attack", 6, 0.8), Signal("b", "credential_attack", 5, 0.8);
    OneStrength(log10, a, false);
    assert Strength(a) == 52.8 && Strength(b) == 44.0;
    assert a in [a] + [b] && b in [a] + [b];
    assert Categories([a] + [b]) == {"web_attack"} + {"credential_attack"};
    assert |Categories([a] + [b])| == 2;
  }
}
