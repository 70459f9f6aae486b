/** Two helpers of the landing page: the step of the animated statistics counters
    and the headline letters, one span per character with spaces made
    non-breaking. */
module Landing {
  import opened Text

  /** The three statistics the counters animate. */
  datatype Counts = Counts(companies: int, compliance: int, savings: int)

  const CompaniesCap: int := 200
  const ComplianceCap: int := 99
  const SavingsCap: int := 80

  /** One counter's step: at or above its cap it shows the cap, below it it grows by
      `step` (which may carry it past the cap for one tick). */
  function Saturate(value: int, cap: int, step: nat): (r: int)
    ensures value >= cap ==> r == cap
    ensures value < cap ==> r == value + step
  {
    if value >= cap then cap else value + step
  }

  /** One tick of the counters; each counter moves on its own. A counter below its cap
      grows; at or above its cap it is pinned to the cap. */
  function Tick(prev: Counts): (r: Counts)
    ensures prev.companies < CompaniesCap ==> r.companies > prev.companies
    ensures prev.companies >= CompaniesCap ==> r.companies == CompaniesCap
    ensures prev.compliance < ComplianceCap ==> r.compliance > prev.compliance
    ensures prev.compliance >= ComplianceCap ==> r.compliance == ComplianceCap
    ensures prev.savings < SavingsCap ==> r.savings > prev.savings
    ensures prev.savings >= SavingsCap ==> r.savings == SavingsCap
    ensures prev.companies < CompaniesCap ==> r.companies == prev.companies + 5
    ensures prev.compliance < ComplianceCap ==> r.compliance == prev.compliance + 2
    ensures prev.savings < SavingsCap ==> r.savings == prev.savings + 2
  {
    Counts(
      Saturate(prev.companies, CompaniesCap, 5),
      Saturate(prev.compliance, ComplianceCap, 2),
      Saturate(prev.savings, SavingsCap, 2))
  }

  /** The counters after `n` ticks from zero. Companies stay a multiple of 5 within
      [0, 200], savings an even number within [0, 80], and compliance an even number
      within [0, 100] or 99. */
  function After(n: nat): (r: Counts)
    ensures 0 <= r.companies <= CompaniesCap && r.companies % 5 == 0
    ensures 0 <= r.savings <= SavingsCap && r.savings % 2 == 0
    ensures 0 <= r.compliance <= 100 && (r.compliance % 2 == 0 || r.compliance == ComplianceCap)
  {
    if n == 0 then Counts(0, 0, 0) else Tick(After(n - 1))
  }

  /** The counters after `n` ticks: companies climb by 5 to 200, savings by 2 to 80,
      and compliance by 2 up to 100 at tick 50, then fall back to 99 and stay. */
  lemma {:induction false} CountsFromZero(n: nat)
    ensures After(n).companies == if 5 * n >= 200 then 200 else 5 * n
    ensures After(n).savings == if 2 * n >= 80 then 80 else 2 * n
    ensures After(n).compliance == if n <= 50 then 2 * n else 99
  {
    if n > 0 {
      CountsFromZero(n - 1);
    }
  }

  /** The compliance counter overshoots its cap: 98, then 100, then 99. */
  lemma ComplianceOvershoots()
    ensures After(49).compliance == 98
    ensures After(50).compliance == 100
    ensures After(51).compliance == 99
  {
    CountsFromZero(49);
    CountsFromZero(50);
    CountsFromZero(51);
  }

  /** From tick 51 on the counters rest at 200, 99 and 80. */
  lemma {:induction false} CountsSettle(n: nat)
    requires n >= 51
    ensures After(n) == Counts(200, 99, 80)
    ensures Tick(After(n)) == After(n)
  {
    CountsFromZero(n);
  }

  /** A counter's step depends only on its own previous value: changing the other two
      counters does not change it. */
  lemma {:induction false} CountersIndependent(a: Counts, b: Counts)
    ensures a.companies == b.companies ==> Tick(a).companies == Tick(b).companies
    ensures a.compliance == b.compliance ==> Tick(a).compliance == Tick(b).compliance
    ensures a.savings == b.savings ==> Tick(a).savings == Tick(b).savings
  {
  }

  /** The non-breaking space U+00A0. */
  const Nbsp: char := '\U{00A0}'

  /** The characters the headline spans show, one per character of `text`: a space
      becomes a non-breaking space, every other character is kept. */
  function Spans(text: string): (r: string)
    ensures |r| == |text|
    ensures forall i :: 0 <= i < |text| ==> r[i] == if text[i] == ' ' then Nbsp else text[i]
  {
    if text == [] then []
    else [if text[0] == ' ' then Nbsp else text[0]] + Spans(text[1..])
  }

  /** Turns non-breaking spaces back into spaces. */
  function Unspan(shown: string): (r: string)
    ensures |r| == |shown|
    ensures forall i :: 0 <= i < |shown| ==> r[i] == if shown[i] == Nbsp then ' ' else shown[i]
  {
    if shown == [] then []
    else [if shown[0] == Nbsp then ' ' else shown[0]] + Unspan(shown[1..])
  }

  /** No plain space survives, and a text without non-breaking spaces is recovered
      from its spans. */
  lemma SpansRoundTrip(text: string)
    ensures ' ' !in Spans(text)
    ensures Nbsp !in text ==> Unspan(Spans(text)) == text
  {
    var r := Spans(text);
    assert forall i :: 0 <= i < |r| ==> r[i] != ' ';
  }

  /** Spans are taken character by character, so they distribute over concatenation. */
  lemma {:induction false} SpansAppend(a: string, b: string)
    ensures Spans(a + b) == Spans(a) + Spans(b)
  {
    if a != [] {
      assert (a + b)[1..] == a[1..] + b;
      SpansAppend(a[1..], b);
    }
  }

  /** A word without spaces is shown as it is. */
  lemma SpansKeepWord(word: string)
    requires ' ' !in word
    ensures Spans(word) == word
  {
  }

  /** A space between two pieces of text becomes a non-breaking space between their spans. */
  lemma SpansAroundSpace(a: string, b: string)
    ensures Spans(a + " " + b) == Spans(a) + [Nbsp] + Spans(b)
  {
    assert Spans(" ") == [Nbsp];
    SpansAppend(a, " ");
    SpansAppend(a + " ", b);
  }

  /** A headline of words separated by single spaces, such as "Compliance Made
      Simple", shows its words unchanged, separated by non-breaking spaces. */
  lemma {:induction false} SpansOfWords(words: seq<string>)
    requires forall k :: 0 <= k < |words| ==> ' ' !in words[k]
    ensures Spans(Join(words, " ")) == Join(words, [Nbsp])
  {
    if |words| == 1 {
      SpansKeepWord(words[0]);
    } else if |words| >= 2 {
      SpansOfWords(words[1..]);
      SpansKeepWord(words[0]);
      SpansAroundSpace(words[0], Join(words[1..], " "));
    }
  }
}
