// The regular expressions scripts/discover-bills.js tests titles, summaries
// and subjects against. Their matching is not modelled: each test is a
// parameter of the model, a function from the tested text to the answer of
// `re.test(text)` (or, for the summary count, to the number of matches the
// global form of the pattern finds). What the model proves is what the script
// does with those answers.

module DcPatterns {

  /** The answers of the script's regular expressions.
      - `positive`: `DC_POSITIVE_PATTERNS`, in order;
      - `negative`: `DC_NEGATIVE_PATTERNS`, in order;
      - `positiveCounts`: for each positive pattern, how many matches its
        source recompiled with the flags `gi` finds in a text;
      - `districtOfColumbia`: `/district\s+of\s+columbia/i`;
      - `dcAbbreviation`: `/\bD\.C\.\b/`;
      - `washingtonDc`: `/Washington,?\s+D\.?C\.?/i`;
      - `homeRule`: `/home\s+rule/i`. */
  datatype Patterns = Patterns(
    positive: seq<string -> bool>,
    negative: seq<string -> bool>,
    positiveCounts: seq<string -> nat>,
    districtOfColumbia: string -> bool,
    dcAbbreviation: string -> bool,
    washingtonDc: string -> bool,
    homeRule: string -> bool)

  /** `patterns.some(p => p.test(s))` */
  function AnyTest(ps: seq<string -> bool>, s: string): (r: bool)
  {
    if |ps| == 0 then false else AnyTest(ps[..|ps| - 1], s) || ps[|ps| - 1](s)
  }

  /** `AnyTest` holds exactly when some pattern accepts `s`. */
  lemma {:induction false} AnyTestIff(ps: seq<string -> bool>, s: string)
    ensures AnyTest(ps, s) <==> exists i :: 0 <= i < |ps| && ps[i](s)
  {
    if |ps| > 0 {
      var init := ps[..|ps| - 1];
      AnyTestIff(init, s);
      if exists i :: 0 <= i < |ps| && ps[i](s) {
        var i :| 0 <= i < |ps| && ps[i](s);
        if i < |ps| - 1 {
          assert init[i] == ps[i];
        }
      }
    }
  }
}
