/** `getDailyChallenge` of app.js: a 32-bit rolling hash of the date string
    selects one entry of the fixed challenge catalog. */
module DailyChallenge {

  datatype Challenge = Challenge(id: string, title: string, count: string, desc: string)

  const Catalog: seq<Challenge> := [
    Challenge("scapula", "Scapula Shrugs", "3x15", "Isolierte Scapula-Bewegung im Hang."),
    Challenge("hollow", "Hollow Body Hold", "3x45s", "Maximale Körperspannung am Boden."),
    Challenge("hang", "Dead Hang", "3x30s", "Passives Hängen für Griffkraft und Schulteröffnung."),
    Challenge("rows", "Bodyweight Rows", "4x12", "Stärke deinen oberen Rücken."),
    Challenge("skin", "Skin the Cat", "3x5", "Mobilität für die Schulter (vorsichtig!)."),
    Challenge("plank", "RKC Plank", "3x30s", "Plank mit maximaler Spannung (Fäuste ballen, Gesäß fest)."),
    Challenge("dragon", "Dragon Flag Negatives", "3x5", "Langsam ablassen, Rücken gerade halten.")
  ]

  const TwoTo32: int := 0x1_0000_0000
  const TwoTo31: int := 0x8000_0000

  /** JavaScript's ToInt32 (what `x | 0` and `x << n` apply to their operand):
      the signed 32-bit value congruent to `x` modulo 2^32. */
  function ToInt32(x: int): (r: int)
    ensures -TwoTo31 <= r < TwoTo31
    ensures (x - r) % TwoTo32 == 0
  {
    var m := x % TwoTo32;
    if m >= TwoTo31 then m - TwoTo32 else m
  }

  /** Values congruent modulo 2^32 have the same 32-bit wrap. */
  lemma ToInt32Congruent(x: int, y: int)
    requires (x - y) % TwoTo32 == 0
    ensures ToInt32(x) == ToInt32(y)
  {
    var q := (x - y) / TwoTo32;
    assert x == y + q * TwoTo32;
    assert x % TwoTo32 == y % TwoTo32;
  }

  /** One step of the loop as written: `hash = ((hash << 5) - hash) + code; hash |= 0`. */
  function HashStep(hash: int, c: char): (h: int)
    ensures -TwoTo31 <= h < TwoTo31
  {
    ToInt32(ToInt32(hash * 32) - hash + c as int)
  }

  /** The hash after the loop has consumed all of `s`, from `hash = 0`. */
  function Hash(s: string): (h: int)
    ensures -TwoTo31 <= h < TwoTo31
  {
    if s == [] then 0 else HashStep(Hash(s[..|s| - 1]), s[|s| - 1])
  }

  /** The textbook polynomial string hash: h := int32(31 h + code) per character. */
  function PolynomialHash(s: string): (h: int)
    ensures -TwoTo31 <= h < TwoTo31
  {
    if s == [] then 0 else ToInt32(31 * PolynomialHash(s[..|s| - 1]) + s[|s| - 1] as int)
  }

  /** The shift-and-subtract step is the polynomial step with multiplier 31. */
  lemma HashStepIsPolynomial(hash: int, c: char)
    ensures HashStep(hash, c) == ToInt32(31 * hash + c as int)
  {
    var shifted := ToInt32(hash * 32);
    assert (hash * 32 - shifted) % TwoTo32 == 0;
    assert (shifted - hash + c as int) - (31 * hash + c as int) == -(hash * 32 - shifted);
    ToInt32Congruent(shifted - hash + c as int, 31 * hash + c as int);
  }

  /** The loop computes exactly the polynomial hash. */
  lemma {:induction false} HashIsPolynomial(s: string)
    ensures Hash(s) == PolynomialHash(s)
    decreases |s|
  {
    if s != [] {
      HashIsPolynomial(s[..|s| - 1]);
      HashStepIsPolynomial(Hash(s[..|s| - 1]), s[|s| - 1]);
    }
  }

  /** `Math.abs` on an integer. */
  function Abs(x: int): (r: nat)
    ensures r == x || r == -x
  {
    if x < 0 then -x else x
  }

  /** `Math.abs(hash) % dailyChallenges.length` over the polynomial hash:
      always a valid catalog index. */
  function ChallengeIndex(dateStr: string): (i: nat)
    ensures i < |Catalog|
  {
    Abs(PolynomialHash(dateStr)) % |Catalog|
  }

  /** `getDailyChallenge`: the loop over the characters of the date string,
      then the catalog entry at the reduced hash. The entry is a function of
      the date string alone, so the same day always gets the same challenge. */
  method GetDailyChallenge(dateStr: string) returns (challenge: Challenge)
    ensures challenge in Catalog
    ensures challenge == Catalog[ChallengeIndex(dateStr)]
  {
    var hash := 0;
    for i := 0 to |dateStr|
      invariant hash == Hash(dateStr[..i])
    {
      assert dateStr[..i + 1][..i] == dateStr[..i];
      hash := ToInt32(ToInt32(hash * 32) - hash + dateStr[i] as int);
    }
    assert dateStr[..|dateStr|] == dateStr;
    HashIsPolynomial(dateStr);
    var index := Abs(hash) % |Catalog|;
    challenge := Catalog[index];
  }

  lemma PolynomialHashSnoc(p: string, c: char)
    ensures PolynomialHash(p + [c]) == ToInt32(31 * PolynomialHash(p) + c as int)
  {
    assert (p + [c])[..|p|] == p;
  }

  /** One step of the hash on a known prefix value. */
  lemma HashSnocValue(p: string, c: char, h: int, h': int)
    requires PolynomialHash(p) == h
    requires h' == ToInt32(31 * h + c as int)
    ensures PolynomialHash(p + [c]) == h'
  {
    PolynomialHashSnoc(p, c);
  }

  lemma PrefixHash2024January()
    ensures PolynomialHash("2024-01-0") == 534404113
  {
    HashSnocValue("", '2', 0, 50);
    assert "" + ['2'] == "2";
    HashSnocValue("2", '0', 50, 1598);
    assert "2" + ['0'] == "20";
    HashSnocValue("20", '2', 1598, 49588);
    assert "20" + ['2'] == "202";
    HashSnocValue("202", '4', 49588, 1537280);
    assert "202" + ['4'] == "2024";
    HashSnocValue("2024", '-', 1537280, 47655725);
    assert "2024" + ['-'] == "2024-";
    HashSnocValue("2024-", '0', 47655725, 1477327523);
    assert "2024-" + ['0'] == "2024-0";
    HashSnocValue("2024-0", '1', 1477327523, -1447486994);
    assert "2024-0" + ['1'] == "2024-01";
    HashSnocValue("2024-01", '-', -1447486994, -1922423809);
    assert "2024-01" + ['-'] == "2024-01-";
    HashSnocValue("2024-01-", '0', -1922423809, 534404113);
    assert "2024-01-" + ['0'] == "2024-01-0";
  }

  /** The date string "2024-01-0d" for a day 1 <= d <= 9. */
  function JanuaryDate(d: nat): (date: string)
    requires 1 <= d <= 9
    ensures |date| == 10
  {
    "2024-01-0" + [('0' as int + d) as char]
  }

  /** The hash of `2024-01-0d` is the prefix step plus the digit d. */
  lemma JanuaryDayHash(d: nat)
    requires 1 <= d <= 7
    ensures PolynomialHash(JanuaryDate(d)) == -613341633 + d
  {
    PrefixHash2024January();
    var c := ('0' as int + d) as char;
    var h := -613341633 + d;
    assert 31 * 534404113 + c as int == 3 * TwoTo32 + (h + TwoTo32);
    assert ToInt32(31 * 534404113 + c as int) == h;
    HashSnocValue("2024-01-0", c, 534404113, h);
  }

  /** So the day `2024-01-0d` selects entry (9 - d) mod 7. */
  lemma JanuaryDayIndex(d: nat)
    requires 1 <= d <= 7
    ensures ChallengeIndex(JanuaryDate(d)) == (9 - d) % 7
  {
    JanuaryDayHash(d);
    var a := 613341633 - d;
    assert Abs(-613341633 + d) == a;
    assert a == 7 * 87620232 + (9 - d);
    assert a % 7 == (9 - d) % 7;
  }

  /** The seven days 2024-01-01 to 2024-01-07 select seven different
      challenges: one week touches every catalog entry. */
  lemma FirstWeekOf2024CoversCatalog()
    ensures [ChallengeIndex(JanuaryDate(1)), ChallengeIndex(JanuaryDate(2)), ChallengeIndex(JanuaryDate(3)),
             ChallengeIndex(JanuaryDate(4)), ChallengeIndex(JanuaryDate(5)), ChallengeIndex(JanuaryDate(6)),
             ChallengeIndex(JanuaryDate(7))] == [1, 0, 6, 5, 4, 3, 2]
  {
    JanuaryDayIndex(1);
    JanuaryDayIndex(2);
    JanuaryDayIndex(3);
    JanuaryDayIndex(4);
    JanuaryDayIndex(5);
    JanuaryDayIndex(6);
    JanuaryDayIndex(7);
  }
}
