/** The filename classifiers of the components are if-chains of substring
    tests: the first group of keywords that occurs in the lower-cased name
    decides the tag. This module gives the table-driven reading of such a
    chain, against which each chain is proved. */
module Classify {
  import opened Text

  datatype Rule = Rule(tag: string, keywords: seq<string>)

  /** Some keyword of the group occurs in `name`. */
  predicate Matches(name: string, keywords: seq<string>)
  {
    |keywords| > 0 && (Contains(name, keywords[0]) || Matches(name, keywords[1..]))
  }

  /** Matches holds exactly when one of the keywords occurs. */
  lemma {:induction false} MatchesSome(name: string, keywords: seq<string>)
    ensures Matches(name, keywords) <==> exists k | 0 <= k < |keywords| :: Contains(name, keywords[k])
  {
    if |keywords| > 0 {
      MatchesSome(name, keywords[1..]);
      if !Contains(name, keywords[0]) && exists k | 0 <= k < |keywords| :: Contains(name, keywords[k]) {
        var k :| 0 <= k < |keywords| && Contains(name, keywords[k]);
        assert keywords[1..][k - 1] == keywords[k];
      }
    }
  }

  /** The tag of the first rule that matches, or `fallback` when none does. */
  function FirstMatch(rules: seq<Rule>, name: string, fallback: string): string
  {
    if rules == [] then fallback
    else if Matches(name, rules[0].keywords) then rules[0].tag
    else FirstMatch(rules[1..], name, fallback)
  }

  /** The first matching rule decides, whatever the later rules say. */
  lemma {:induction false} FirstMatchIsFirst(rules: seq<Rule>, name: string, fallback: string, i: nat)
    requires i < |rules| && Matches(name, rules[i].keywords)
    requires forall j | 0 <= j < i :: !Matches(name, rules[j].keywords)
    ensures FirstMatch(rules, name, fallback) == rules[i].tag
  {
    if i > 0 {
      assert !Matches(name, rules[0].keywords);
      FirstMatchIsFirst(rules[1..], name, fallback, i - 1);
    }
  }

  /** With no matching rule the fallback is the result. */
  lemma {:induction false} FirstMatchNone(rules: seq<Rule>, name: string, fallback: string)
    requires forall j | 0 <= j < |rules| :: !Matches(name, rules[j].keywords)
    ensures FirstMatch(rules, name, fallback) == fallback
  {
    if rules != [] {
      assert !Matches(name, rules[0].keywords);
      FirstMatchNone(rules[1..], name, fallback);
    }
  }

  /** The result is the tag of some rule, or the fallback. */
  lemma {:induction false} FirstMatchRange(rules: seq<Rule>, name: string, fallback: string)
    ensures FirstMatch(rules, name, fallback) == fallback
            || exists i | 0 <= i < |rules| :: FirstMatch(rules, name, fallback) == rules[i].tag
  {
    if rules != [] && !Matches(name, rules[0].keywords) {
      FirstMatchRange(rules[1..], name, fallback);
      if FirstMatch(rules[1..], name, fallback) != fallback {
        var i :| 0 <= i < |rules[1..]| && FirstMatch(rules[1..], name, fallback) == rules[1..][i].tag;
        assert FirstMatch(rules, name, fallback) == rules[i + 1].tag;
      }
    }
  }

  /** When no rule carries the fallback tag, the fallback comes out exactly when no rule matches. */
  lemma {:induction false} FirstMatchFallbackIff(rules: seq<Rule>, name: string, fallback: string)
    requires forall j | 0 <= j < |rules| :: rules[j].tag != fallback
    ensures FirstMatch(rules, name, fallback) == fallback
            <==> forall j | 0 <= j < |rules| :: !Matches(name, rules[j].keywords)
  {
    if rules != [] {
      FirstMatchFallbackIff(rules[1..], name, fallback);
      assert forall j | 1 <= j < |rules| :: rules[j] == rules[1..][j - 1];
    }
  }
}
