/**
 * The two classification tables of the decibel view, `description(for:)` and
 * `color(for:)`: first-match switches over half-open ranges of the displayed level.
 * Each is proved equal to a reference built from its list of effective thresholds:
 * a level falls in band k exactly when k thresholds are at or below it.
 */
module Bands {

  /** The twelve sound descriptions, in the order of the switch. */
  datatype Description =
    | Rustling | Household | Conversation | Office | Vacuum | Lawnmower
    | Subway | Player | Chainsaw | Crowd | Takeoff | Gunshot

  /** The text shown for each description. */
  function Label(d: Description): string
  {
    match d
    case Rustling => "Hojas crujiendo, susurrando"
    case Household => "Ruido promedio del hogar"
    case Conversation => "Conversación normal, música de fondo"
    case Office => "Ruido de la oficina, dentro de un coche"
    case Vacuum => "Aspiradora, radio promedio"
    case Lawnmower => "Motor de césped eléctrico, tráfico pesado"
    case Subway => "Metro, conversación gritada"
    case Player => "Reproductor de sonido, motocicleta"
    case Chainsaw => "Motosierra, soplador de hojas"
    case Crowd => "Multitud deportiva, concierto de rock"
    case Takeoff => "Despegue de avión"
    case Gunshot => "Disparo, sirena, fuegos artificiales"
  }

  /**
   * `description(for:)`: the cases in source order, the first that matches wins. The
   * second and third cases overlap the ones before them, so their effective ranges
   * start at 40 and 60 rather than at 30 and 40.
   */
  function DescriptionFor(db: real): Description
  {
    if db < 40.0 then Rustling
    else if 30.0 <= db < 60.0 then Household
    else if 40.0 <= db < 70.0 then Conversation
    else if 70.0 <= db < 75.0 then Office
    else if 75.0 <= db < 80.0 then Vacuum
    else if 80.0 <= db < 90.0 then Lawnmower
    else if 90.0 <= db < 95.0 then Subway
    else if 95.0 <= db < 100.0 then Player
    else if 100.0 <= db < 120.0 then Chainsaw
    else if 120.0 <= db < 130.0 then Crowd
    else if 130.0 <= db < 140.0 then Takeoff
    else Gunshot
  }

  /** The asset colours, named after the band they end (`.accent`, `._40DB` … `._140DB`). */
  datatype Color =
    | Accent | DB40 | DB60 | DB70 | DB75 | DB80
    | DB90 | DB100 | DB110 | DB120 | DB130 | DB140

  /** `color(for:)`: the cases in source order, the first that matches wins. */
  function ColorFor(db: real): Color
  {
    if db < 30.0 then Accent
    else if 30.0 <= db < 40.0 then DB40
    else if 40.0 <= db < 60.0 then DB60
    else if 60.0 <= db < 70.0 then DB70
    else if 70.0 <= db < 75.0 then DB75
    else if 75.0 <= db < 80.0 then DB80
    else if 80.0 <= db < 90.0 then DB90
    else if 90.0 <= db < 100.0 then DB100
    else if 100.0 <= db < 110.0 then DB110
    else if 110.0 <= db < 120.0 then DB120
    else if 120.0 <= db < 130.0 then DB130
    else DB140
  }

  // The reference: bands cut by increasing thresholds.

  /** The effective lower bounds of descriptions 1 … 11 (Household … Gunshot). */
  const DescriptionBounds: seq<real> :=
    [40.0, 60.0, 70.0, 75.0, 80.0, 90.0, 95.0, 100.0, 120.0, 130.0, 140.0]

  const Descriptions: seq<Description> :=
    [Rustling, Household, Conversation, Office, Vacuum, Lawnmower,
     Subway, Player, Chainsaw, Crowd, Takeoff, Gunshot]

  /** The lower bounds of colours 1 … 11 (`._40DB` … `._140DB`). */
  const ColorBounds: seq<real> :=
    [30.0, 40.0, 60.0, 70.0, 75.0, 80.0, 90.0, 100.0, 110.0, 120.0, 130.0]

  const Colors: seq<Color> :=
    [Accent, DB40, DB60, DB70, DB75, DB80, DB90, DB100, DB110, DB120, DB130, DB140]

  ghost predicate Increasing(bounds: seq<real>)
  {
    forall i, j :: 0 <= i < j < |bounds| ==> bounds[i] < bounds[j]
  }

  /** Band `k` is `[bounds[k-1], bounds[k])`, open below for the first and above for the last. */
  predicate InBand(bounds: seq<real>, k: nat, x: real)
    requires k <= |bounds|
  {
    (k == 0 || bounds[k - 1] <= x) && (k == |bounds| || x < bounds[k])
  }

  /** How many thresholds are at or below `x`. */
  function CountAtMost(bounds: seq<real>, x: real): (n: nat)
    ensures n <= |bounds|
  {
    if |bounds| == 0 then 0
    else (if bounds[0] <= x then 1 else 0) + CountAtMost(bounds[1..], x)
  }

  lemma IncreasingTail(bounds: seq<real>)
    requires Increasing(bounds) && |bounds| > 0
    ensures Increasing(bounds[1..])
  {
    forall i, j | 0 <= i < j < |bounds| - 1
      ensures bounds[1..][i] < bounds[1..][j]
    {
      assert bounds[1..][i] == bounds[i + 1] && bounds[1..][j] == bounds[j + 1];
    }
  }

  /** Over increasing thresholds, `x` lies in the band its count names. */
  lemma {:induction false} CountLocates(bounds: seq<real>, x: real)
    requires Increasing(bounds)
    ensures InBand(bounds, CountAtMost(bounds, x), x)
  {
    if |bounds| > 0 {
      var tail := bounds[1..];
      IncreasingTail(bounds);
      CountLocates(tail, x);
      var m := CountAtMost(tail, x);
      if bounds[0] <= x {
        if m > 0 {
          assert bounds[m] == tail[m - 1];
        }
        if m < |tail| {
          assert bounds[m + 1] == tail[m];
        }
      } else {
        assert |tail| == 0 || tail[0] == bounds[1];
      }
    }
  }

  /** Over increasing thresholds, a value lies in one band only: the one its count names. */
  lemma {:induction false} BandUnique(bounds: seq<real>, k: nat, x: real)
    requires Increasing(bounds) && k <= |bounds| && InBand(bounds, k, x)
    ensures CountAtMost(bounds, x) == k
  {
    CountLocates(bounds, x);
  }

  /** The count never decreases as `x` grows. */
  lemma {:induction false} CountMonotone(bounds: seq<real>, x: real, y: real)
    requires x <= y
    ensures CountAtMost(bounds, x) <= CountAtMost(bounds, y)
  {
    if |bounds| > 0 {
      CountMonotone(bounds[1..], x, y);
    }
  }

  lemma BoundsIncreasing()
    ensures Increasing(DescriptionBounds) && Increasing(ColorBounds)
  {
  }

  // The tables against the reference.

  /**
   * Every level gets the description of the band it lies in under the effective
   * thresholds: the twelve descriptions split the real line into contiguous half-open
   * bands, lower bound inclusive.
   */
  lemma DescriptionByBand(db: real)
    ensures DescriptionFor(db) == Descriptions[CountAtMost(DescriptionBounds, db)]
  {
    BoundsIncreasing();
    var bs := DescriptionBounds;
    var k: nat :=
      if db < 40.0 then 0 else if db < 60.0 then 1 else if db < 70.0 then 2
      else if db < 75.0 then 3 else if db < 80.0 then 4 else if db < 90.0 then 5
      else if db < 95.0 then 6 else if db < 100.0 then 7 else if db < 120.0 then 8
      else if db < 130.0 then 9 else if db < 140.0 then 10 else 11;
    BandUnique(bs, k, db);
  }

  /** Every level gets the colour of the band it lies in: twelve contiguous half-open bands. */
  lemma ColorByBand(db: real)
    ensures ColorFor(db) == Colors[CountAtMost(ColorBounds, db)]
  {
    BoundsIncreasing();
    var bs := ColorBounds;
    var k: nat :=
      if db < 30.0 then 0 else if db < 40.0 then 1 else if db < 60.0 then 2
      else if db < 70.0 then 3 else if db < 75.0 then 4 else if db < 80.0 then 5
      else if db < 90.0 then 6 else if db < 100.0 then 7 else if db < 110.0 then 8
      else if db < 120.0 then 9 else if db < 130.0 then 10 else 11;
    BandUnique(bs, k, db);
  }

  /** Description `k` is shown exactly for the levels of band `k`. */
  lemma DescriptionBand(db: real, k: nat)
    requires k < |Descriptions|
    ensures DescriptionFor(db) == Descriptions[k] <==> InBand(DescriptionBounds, k, db)
  {
    var n := CountAtMost(DescriptionBounds, db);
    DescriptionByBand(db);
    BoundsIncreasing();
    CountLocates(DescriptionBounds, db);
    RankOfDescriptionAt(n);
    RankOfDescriptionAt(k);
    if InBand(DescriptionBounds, k, db) {
      BandUnique(DescriptionBounds, k, db);
    }
  }

  /** Colour `k` is used exactly for the levels of band `k`. */
  lemma ColorBand(db: real, k: nat)
    requires k < |Colors|
    ensures ColorFor(db) == Colors[k] <==> InBand(ColorBounds, k, db)
  {
    var n := CountAtMost(ColorBounds, db);
    ColorByBand(db);
    BoundsIncreasing();
    CountLocates(ColorBounds, db);
    RankOfColorAt(n);
    RankOfColorAt(k);
    if InBand(ColorBounds, k, db) {
      BandUnique(ColorBounds, k, db);
    }
  }

  /** The position of a description in the table, from quietest to loudest. */
  function DescriptionRank(d: Description): (k: nat)
    ensures k < |Descriptions| && Descriptions[k] == d
  {
    match d
    case Rustling => 0 case Household => 1 case Conversation => 2 case Office => 3
    case Vacuum => 4 case Lawnmower => 5 case Subway => 6 case Player => 7
    case Chainsaw => 8 case Crowd => 9 case Takeoff => 10 case Gunshot => 11
  }

  /** The position of a colour in the table, from quietest to loudest. */
  function ColorRank(c: Color): (k: nat)
    ensures k < |Colors| && Colors[k] == c
  {
    match c
    case Accent => 0 case DB40 => 1 case DB60 => 2 case DB70 => 3
    case DB75 => 4 case DB80 => 5 case DB90 => 6 case DB100 => 7
    case DB110 => 8 case DB120 => 9 case DB130 => 10 case DB140 => 11
  }

  /** A louder level never gets an earlier description. */
  lemma DescriptionMonotone(x: real, y: real)
    requires x <= y
    ensures DescriptionRank(DescriptionFor(x)) <= DescriptionRank(DescriptionFor(y))
  {
    DescriptionByBand(x);
    DescriptionByBand(y);
    CountMonotone(DescriptionBounds, x, y);
    RankOfDescriptionAt(CountAtMost(DescriptionBounds, x));
    RankOfDescriptionAt(CountAtMost(DescriptionBounds, y));
  }

  /** A louder level never gets an earlier colour. */
  lemma ColorMonotone(x: real, y: real)
    requires x <= y
    ensures ColorRank(ColorFor(x)) <= ColorRank(ColorFor(y))
  {
    ColorByBand(x);
    ColorByBand(y);
    CountMonotone(ColorBounds, x, y);
    RankOfColorAt(CountAtMost(ColorBounds, x));
    RankOfColorAt(CountAtMost(ColorBounds, y));
  }

  lemma RankOfDescriptionAt(k: nat)
    requires k < |Descriptions|
    ensures DescriptionRank(Descriptions[k]) == k
  {
  }

  lemma RankOfColorAt(k: nat)
    requires k < |Colors|
    ensures ColorRank(Colors[k]) == k
  {
  }

  // The quirks of the description table.

  /** Everything below 40, the shadowed range 30..<40 included, reads as rustling leaves. */
  lemma QuietIsRustling(db: real)
    ensures DescriptionFor(db) == Rustling <==> db < 40.0
  {
    DescriptionBand(db, 0);
  }

  /** The household label covers [40, 60): its case is cut by the one before it. */
  lemma HouseholdBand(db: real)
    ensures DescriptionFor(db) == Household <==> 40.0 <= db < 60.0
  {
    DescriptionBand(db, 1);
  }

  /** Normal conversation covers only [60, 70): both cases before it cut its range. */
  lemma ConversationBand(db: real)
    ensures DescriptionFor(db) == Conversation <==> 60.0 <= db < 70.0
  {
    DescriptionBand(db, 2);
  }

  /** From 140 up every level falls to the default. */
  lemma LoudestIsGunshot(db: real)
    ensures DescriptionFor(db) == Gunshot <==> db >= 140.0
  {
    DescriptionBand(db, 11);
  }

  /** Each effective threshold opens its band: the lower bound is inclusive. */
  lemma DescriptionLowerBounds(k: nat)
    requires 1 <= k < |Descriptions|
    ensures DescriptionFor(DescriptionBounds[k - 1]) == Descriptions[k]
  {
    BoundsIncreasing();
    var db := DescriptionBounds[k - 1];
    assert InBand(DescriptionBounds, k, db);
    DescriptionBand(db, k);
  }

  /** The boundary values: 70 is office noise, 130 a take-off, 140 the default. */
  lemma DescriptionBoundaryExamples()
    ensures DescriptionFor(70.0) == Office && Label(Office) == "Ruido de la oficina, dentro de un coche"
    ensures DescriptionFor(130.0) == Takeoff && Label(Takeoff) == "Despegue de avión"
    ensures DescriptionFor(140.0) == Gunshot
    ensures DescriptionFor(30.0) == Rustling && DescriptionFor(40.0) == Household
    ensures DescriptionFor(60.0) == Conversation
  {
  }

  // The ends of the colour table.

  /** Below 30 the accent colour is used, and only there. */
  lemma QuietIsAccent(db: real)
    ensures ColorFor(db) == Accent <==> db < 30.0
  {
    ColorBand(db, 0);
  }

  /** From 130 up the last colour is used, and only there. */
  lemma LoudestIs140(db: real)
    ensures ColorFor(db) == DB140 <==> db >= 130.0
  {
    ColorBand(db, 11);
  }

  /** Each colour threshold opens its band: the lower bound is inclusive. */
  lemma ColorLowerBounds(k: nat)
    requires 1 <= k < |Colors|
    ensures ColorFor(ColorBounds[k - 1]) == Colors[k]
  {
    BoundsIncreasing();
    var db := ColorBounds[k - 1];
    assert InBand(ColorBounds, k, db);
    ColorBand(db, k);
  }
}
