/**
 * Colours of the graph: a department's colour picked from a twelve-entry palette
 * by a string hash that wraps around at 32 bits, the sentiment colours of links
 * and the border marking a high-risk person.
 */
module Colors {
  import opened Wrappers

  const DepartmentPalette: seq<string> := [
    "#0078D4", "#E74856", "#00CC6A", "#F7630C", "#8764B8", "#00B7C3",
    "#CA5010", "#498205", "#E3008C", "#4F6BED", "#986F0B", "#69797E"]

  const TwoTo31: int := 0x8000_0000
  const TwoTo32: int := 0x1_0000_0000

  /** `x | 0`: the signed 32-bit integer congruent to `x` modulo 2^32. */
  function Wrap32(x: int): (r: int)
    ensures -TwoTo31 <= r < TwoTo31
    ensures (r - x) % TwoTo32 == 0
    ensures -TwoTo31 <= x < TwoTo31 ==> r == x
  {
    (x + TwoTo31) % TwoTo32 - TwoTo31
  }

  /** One step of the hash: `((hash << 5) - hash + char) | 0` on a signed 32-bit `hash`. */
  function HashStep(hash: int, c: char): int {
    Wrap32(Wrap32(hash * 32) - hash + c as int)
  }

  /** The signed accumulator after hashing every character of `s`. */
  function HashAccumulator(s: string): (h: int)
    ensures -TwoTo31 <= h < TwoTo31
  {
    if s == [] then 0 else HashStep(HashAccumulator(s[..|s| - 1]), s[|s| - 1])
  }

  /** `hashString`: the absolute value of the accumulator. */
  function HashCode(s: string): (h: nat)
    ensures h <= TwoTo31
  {
    var a := HashAccumulator(s);
    if a < 0 then -a else a
  }

  /** `hashString` as the loop the source runs. */
  method HashString(str: string) returns (h: int)
    ensures h == HashCode(str)
    ensures 0 <= h <= TwoTo31
  {
    var hash := 0;
    for i := 0 to |str|
      invariant hash == HashAccumulator(str[..i])
      invariant -TwoTo31 <= hash < TwoTo31
    {
      assert str[..i + 1][..i] == str[..i];
      hash := Wrap32(Wrap32(hash * 32) - hash + str[i] as int);
    }
    assert str[..|str|] == str;
    h := if hash < 0 then -hash else hash;
  }

  /** `getDepartmentColor`: the last palette entry for no department, else the entry the hash selects. */
  function GetDepartmentColor(department: string): (color: string)
    ensures color in DepartmentPalette
    ensures department == "" ==> color == "#69797E"
    ensures department != "" ==> color == DepartmentPalette[HashCode(department) % 12]
  {
    if department == "" then DepartmentPalette[|DepartmentPalette| - 1]
    else DepartmentPalette[HashCode(department) % |DepartmentPalette|]
  }

  /** The hash of a one-character name is the character's code. */
  lemma SingleCharacterHash(c: char)
    ensures HashCode([c]) == c as int
    ensures GetDepartmentColor([c]) == DepartmentPalette[(c as int) % 12]
  {
    assert [c][..0] == [];
    assert HashAccumulator([c]) == HashStep(0, c);
    assert Wrap32(0 * 32) == 0;
    assert 0 <= c as int < TwoTo31;
  }

  /** Hashing one more character applies one step to the accumulator so far, so equal prefixes hash alike. */
  lemma {:induction false} HashAccumulatorAppend(s: string, c: char)
    ensures HashAccumulator(s + [c]) == HashStep(HashAccumulator(s), c)
  {
    assert (s + [c])[..|s|] == s;
  }

  /** `getSentimentColor`. */
  function GetSentimentColor(sentiment: string): string {
    if sentiment == "Positive" then "#107C10"
    else if sentiment == "Negative" then "#D13438"
    else if sentiment == "Complex" then "#8764B8"
    else "#8A8886"
  }

  /** Each named sentiment has its colour, and any other value gets the Neutral colour. */
  lemma SentimentColors(sentiment: string)
    ensures GetSentimentColor("Positive") == "#107C10" && GetSentimentColor("Negative") == "#D13438"
    ensures GetSentimentColor("Neutral") == "#8A8886" && GetSentimentColor("Complex") == "#8764B8"
    ensures sentiment !in ["Positive", "Negative", "Neutral", "Complex"] ==>
      GetSentimentColor(sentiment) == GetSentimentColor("Neutral")
  {
  }

  /** `getRiskBorderColor`: a border only for the "High" level. */
  function GetRiskBorderColor(riskLevel: string): (color: Option<string>)
    ensures color.Some? <==> riskLevel == "High"
    ensures color.Some? ==> color.value == "#D13438"
  {
    if riskLevel == "High" then Some("#D13438") else None
  }
}
