/**
 * The icons the site picks by keyword, and the rule both icon helpers
 * follow: an ordered list of keyword rules, tried on the lower-cased text,
 * the first rule with a matching keyword deciding, a fallback otherwise.
 */
module Keywords {
  import opened Strings

  /** The lucide-react icons the two helpers choose between. */
  datatype Icon = Cpu | Layers | BrainCircuit | Database | Microscope | Network | Activity | ShieldCheck | Zap

  /** A rule: any one of the keywords occurring selects the icon. */
  datatype Rule = Rule(keywords: seq<string>, icon: Icon)

  predicate Fires(rule: Rule, text: string) {
    exists k :: 0 <= k < |rule.keywords| && Contains(text, rule.keywords[k])
  }

  /** A one-keyword rule fires exactly when its keyword occurs. */
  lemma FiresSingle(rule: Rule, text: string, keyword: string)
    requires rule.keywords == [keyword]
    ensures Fires(rule, text) <==> Contains(text, keyword)
  {
    if Contains(text, keyword) {
      assert Contains(text, rule.keywords[0]);
    }
  }

  /** A two-keyword rule fires exactly when either keyword occurs. */
  lemma FiresPair(rule: Rule, text: string, first: string, second: string)
    requires rule.keywords == [first, second]
    ensures Fires(rule, text) <==> Contains(text, first) || Contains(text, second)
  {
    if Contains(text, first) {
      assert Contains(text, rule.keywords[0]);
    }
    if Contains(text, second) {
      assert Contains(text, rule.keywords[1]);
    }
  }

  /** The icon of the first rule that fires on `text`, else `fallback`. */
  function FirstMatch(rules: seq<Rule>, text: string, fallback: Icon): (r: Icon)
    ensures (exists k :: 0 <= k < |rules| && Fires(rules[k], text) && r == rules[k].icon &&
               forall j :: 0 <= j < k ==> !Fires(rules[j], text))
         || (r == fallback && forall k :: 0 <= k < |rules| ==> !Fires(rules[k], text))
  {
    if rules == [] then fallback
    else if Fires(rules[0], text) then rules[0].icon
    else
      var r := FirstMatch(rules[1..], text, fallback);
      assert forall k :: 1 <= k < |rules| ==> rules[k] == rules[1..][k - 1];
      r
  }

  /** The upper-case form of a lower-case ASCII letter; other characters are kept. */
  function UpperChar(c: char): (r: char)
    ensures LowerChar(r) == LowerChar(c)
  {
    if 'a' <= c <= 'z' then (c as int - 'a' as int + 'A' as int) as char else c
  }

  /** `text` holds the letter `c` in neither case. */
  predicate Lacks(text: string, c: char) {
    c !in text && UpperChar(c) !in text
  }

  /** A keyword one of whose letters the text lacks does not occur in it, in any case. */
  lemma KeywordAbsent(text: string, keyword: string, k: nat)
    requires k < |keyword| && Lacks(text, keyword[k])
    ensures !Contains(ToLower(text), keyword)
  {
    ContainsHasChar(ToLower(text), keyword, k);
    ToLowerMember(text, keyword[k]);
  }

  /** A keyword present in the text: a slice of it lower-cases to the keyword. */
  lemma KeywordPresent(text: string, keyword: string, i: nat)
    requires i + |keyword| <= |text|
    requires ToLower(text[i..i + |keyword|]) == keyword
    ensures Contains(ToLower(text), keyword)
  {
    ToLowerSlice(text, i, i + |keyword|);
    assert OccursAt(ToLower(text), keyword, i);
    ContainsIffOccurs(ToLower(text), keyword);
  }
}
