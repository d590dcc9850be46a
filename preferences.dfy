/** The preference classifier (`classify_preferences`) and the strong-name
    filter applied to search results in `place_search_node`. Both are plain
    substring tests on lower-cased text. */
module Preferences {
  import opened Wrappers
  import opened Text
  import opened Records

  /** The refusal words that open the "not X" patterns. */
  const Refusals: seq<string> := ["不吃", "不能"]
  const VegetarianWords: seq<string> := ["素食", "吃素", "vegan", "vegetarian"]
  const HalalWords: seq<string> := ["清真", "halal"]

  /** Where one preference goes: a hard constraint, or the lower-cased text
      as a free-text wish. */
  datatype Class = Strong(tag: StrongTag) | Weak(text: string)

  /** The rule chain tried on one lower-cased preference, in order. */
  function Classify(p: string): Class {
    var txt := Lower(p);
    if HeadThenChar(txt, Refusals, '牛') then Strong(NoBeef)
    else if HeadThenChar(txt, Refusals, '辣') then Strong(NoSpicy)
    else if ContainsAny(txt, VegetarianWords) then Strong(Vegetarian)
    else if ContainsAny(txt, HalalWords) then Strong(Halal)
    else if HeadThenChar(txt, Refusals, '豬') then Strong(NoPork)
    else Weak(txt)
  }

  /** The constraints found in `ps`, in order. */
  function StrongPart(ps: seq<string>): seq<StrongTag> {
    if ps == [] then []
    else
      StrongPart(ps[..|ps| - 1])
        + (match Classify(ps[|ps| - 1]) case Strong(t) => [t] case Weak(_) => [])
  }

  /** The free-text wishes in `ps`, lower-cased, in order. */
  function WeakPart(ps: seq<string>): seq<string> {
    if ps == [] then []
    else
      WeakPart(ps[..|ps| - 1])
        + (match Classify(ps[|ps| - 1]) case Strong(_) => [] case Weak(w) => [w])
  }

  /** The classified preferences: constraints and wishes, each in order. */
  function Classified(ps: seq<string>): Prefs {
    Prefs(StrongPart(ps), WeakPart(ps))
  }

  /** `classify_preferences`: one pass over the preferences, appending each
      one's code to the constraints or its lower-cased text to the wishes. */
  method ClassifyPreferences(prefs: seq<string>) returns (r: Prefs)
    ensures r == Classified(prefs)
  {
    var strong: seq<StrongTag> := [];
    var weak: seq<string> := [];
    for i := 0 to |prefs|
      invariant strong == StrongPart(prefs[..i])
      invariant weak == WeakPart(prefs[..i])
    {
      assert prefs[..i + 1][..i] == prefs[..i];
      var txt := Lower(prefs[i]);
      if HeadThenChar(txt, Refusals, '牛') {
        strong := strong + [NoBeef];
      } else if HeadThenChar(txt, Refusals, '辣') {
        strong := strong + [NoSpicy];
      } else if ContainsAny(txt, VegetarianWords) {
        strong := strong + [Vegetarian];
      } else if ContainsAny(txt, HalalWords) {
        strong := strong + [Halal];
      } else if HeadThenChar(txt, Refusals, '豬') {
        strong := strong + [NoPork];
      } else {
        weak := weak + [txt];
      }
    }
    assert prefs[..|prefs|] == prefs;
    r := Prefs(strong, weak);
  }

  /** Every preference lands in exactly one of the two lists. */
  lemma {:induction false} ClassifyPartitions(ps: seq<string>)
    ensures |StrongPart(ps)| + |WeakPart(ps)| == |ps|
  {
    if ps != [] {
      ClassifyPartitions(ps[..|ps| - 1]);
    }
  }

  /** A constraint is listed exactly when some preference is classified as
      it, and a wish exactly when some preference matched no rule and
      lower-cases to it. */
  lemma {:induction false} ClassifyAccountsForAll(ps: seq<string>)
    ensures forall t :: t in StrongPart(ps) <==> exists p :: p in ps && Classify(p) == Strong(t)
    ensures forall w :: w in WeakPart(ps) <==> exists p :: p in ps && Classify(p) == Weak(w)
  {
    if ps != [] {
      var init := ps[..|ps| - 1];
      var last := ps[|ps| - 1];
      ClassifyAccountsForAll(init);
      assert ps == init + [last];
      forall t ensures t in StrongPart(ps) <==> exists p :: p in ps && Classify(p) == Strong(t) {
        if t in StrongPart(ps) && t !in StrongPart(init) {
          assert Classify(last) == Strong(t);
        }
        if exists p :: p in ps && Classify(p) == Strong(t) {
          var p :| p in ps && Classify(p) == Strong(t);
          if p != last {
            assert p in init;
          }
        }
      }
      forall w ensures w in WeakPart(ps) <==> exists p :: p in ps && Classify(p) == Weak(w) {
        if w in WeakPart(ps) && w !in WeakPart(init) {
          assert Classify(last) == Weak(w);
        }
        if exists p :: p in ps && Classify(p) == Weak(w) {
          var p :| p in ps && Classify(p) == Weak(w);
          if p != last {
            assert p in init;
          }
        }
      }
    }
  }

  /** A wish is the lower-cased text of a preference that matched no rule. */
  lemma WeakIsUnmatchedText(p: string)
    requires Classify(p).Weak?
    ensures Classify(p).text == Lower(p)
    ensures !HeadThenChar(Lower(p), Refusals, '牛') && !HeadThenChar(Lower(p), Refusals, '辣')
    ensures !ContainsAny(Lower(p), VegetarianWords) && !ContainsAny(Lower(p), HalalWords)
    ensures !HeadThenChar(Lower(p), Refusals, '豬')
  {
  }

  /** The rules are tried in order: a preference refusing both beef and
      spicy food counts as no-beef only. */
  lemma FirstRuleWins()
    ensures Classify("不吃牛也不吃辣") == Strong(NoBeef)
  {
    var s := "不吃牛也不吃辣";
    assert Lower(s) == s;
    assert OccursAt(s, "不吃", 0);
    assert s[2] == '牛';
    assert OnOneLine(s, 2, 2);
  }

  /** Upper-case letters are folded before matching. */
  lemma CaseIsIgnored()
    ensures Classify("HALAL") == Strong(Halal)
  {
    var t := Lower("HALAL");
    assert t == "halal" by {
      assert t[0] == 'h' && t[1] == 'a' && t[2] == 'l' && t[3] == 'a' && t[4] == 'l';
    }
    assert OccursAt(t, "halal", 0);
    assert Contains(t, "halal");
    assert HalalWords[1] == "halal";
    assert forall j | 0 <= j < |t| :: t[j] != '牛' && t[j] != '辣';
    assert !ContainsAny(t, VegetarianWords) by {
      forall w, i | w in VegetarianWords && 0 <= i <= |t| ensures !OccursAt(t, w, i) {
        assert w[0] !in "hal";
      }
    }
  }

  // ------------------------------------------------------- name filter

  const BeefWords: seq<string> := ["牛", "和牛", "牛排"]
  const SpicyWords: seq<string> := ["辣", "麻辣", "辣子", "辣醬"]
  const VeggieNameWords: seq<string> := ["素食", "蔬食", "vegan", "vegetarian"]
  const PorkWords: seq<string> := ["豬", "豬肉"]

  /** Whether a restaurant survives every active constraint, judged on its
      lower-cased name (`""` when the name is missing). */
  predicate Passes(r: Place, strong: seq<StrongTag>) {
    var name := Lower(r.name.GetOr(""));
    && !(NoBeef in strong && ContainsAny(name, BeefWords))
    && !(NoSpicy in strong && ContainsAny(name, SpicyWords))
    && !(Vegetarian in strong && !ContainsAny(name, VeggieNameWords))
    && !(Halal in strong && !ContainsAny(name, HalalWords))
    && !(NoPork in strong && ContainsAny(name, PorkWords))
  }

  /** The restaurants that pass, in their original order. */
  function Passing(rs: seq<Place>, strong: seq<StrongTag>): seq<Place> {
    if rs == [] then []
    else
      Passing(rs[..|rs| - 1], strong)
        + (if Passes(rs[|rs| - 1], strong) then [rs[|rs| - 1]] else [])
  }

  /** The filtering loop of `place_search_node`. */
  method FilterByStrong(rs: seq<Place>, strong: seq<StrongTag>) returns (kept: seq<Place>)
    ensures kept == Passing(rs, strong)
  {
    kept := [];
    for i := 0 to |rs|
      invariant kept == Passing(rs[..i], strong)
    {
      assert rs[..i + 1][..i] == rs[..i];
      var name := Lower(rs[i].name.GetOr(""));
      if NoBeef in strong && ContainsAny(name, BeefWords) {
        continue;
      }
      if NoSpicy in strong && ContainsAny(name, SpicyWords) {
        continue;
      }
      if Vegetarian in strong && !ContainsAny(name, VeggieNameWords) {
        continue;
      }
      if Halal in strong && !ContainsAny(name, HalalWords) {
        continue;
      }
      if NoPork in strong && ContainsAny(name, PorkWords) {
        continue;
      }
      kept := kept + [rs[i]];
    }
    assert rs[..|rs|] == rs;
  }

  /** The kept restaurants are exactly those of the input that pass. */
  lemma {:induction false} PassingExactly(rs: seq<Place>, strong: seq<StrongTag>)
    ensures |Passing(rs, strong)| <= |rs|
    ensures forall r :: r in Passing(rs, strong) <==> r in rs && Passes(r, strong)
  {
    if rs != [] {
      var init := rs[..|rs| - 1];
      PassingExactly(init, strong);
      assert rs == init + [rs[|rs| - 1]];
    }
  }

  /** With no active constraint nothing is filtered out. */
  lemma {:induction false} PassingWithoutConstraints(rs: seq<Place>)
    ensures Passing(rs, []) == rs
  {
    if rs != [] {
      PassingWithoutConstraints(rs[..|rs| - 1]);
      assert rs == rs[..|rs| - 1] + [rs[|rs| - 1]];
    }
  }

  /** A longer alternative that starts or ends with `c` occurs only where `c`
      occurs. */
  lemma OccursWithin(s: string, w: string, c: char, k: nat, i: int)
    requires k < |w| && w[k] == c
    requires OccursAt(s, w, i)
    ensures OccursAt(s, [c], i + k)
  {
    assert s[i + k] == s[i..i + |w|][k];
  }

  /** Each name alternation is the same test as looking for its single key
      character: `(牛|和牛|牛排)` matches exactly when 牛 occurs, and likewise
      for 辣 and 豬. */
  lemma NameAlternationsAreSingleChars(name: string)
    ensures ContainsAny(name, BeefWords) <==> Contains(name, "牛")
    ensures ContainsAny(name, SpicyWords) <==> Contains(name, "辣")
    ensures ContainsAny(name, PorkWords) <==> Contains(name, "豬")
  {
    if ContainsAny(name, BeefWords) {
      var w, i :| w in BeefWords && 0 <= i <= |name| && OccursAt(name, w, i);
      OccursWithin(name, w, '牛', if w == "和牛" then 1 else 0, i);
      assert OccursAt(name, "牛", if w == "和牛" then i + 1 else i);
    }
    if Contains(name, "牛") {
      assert "牛" in BeefWords;
    }
    if ContainsAny(name, SpicyWords) {
      var w, i :| w in SpicyWords && 0 <= i <= |name| && OccursAt(name, w, i);
      OccursWithin(name, w, '辣', if w == "麻辣" then 1 else 0, i);
      assert OccursAt(name, "辣", if w == "麻辣" then i + 1 else i);
    }
    if Contains(name, "辣") {
      assert "辣" in SpicyWords;
    }
    if ContainsAny(name, PorkWords) {
      var w, i :| w in PorkWords && 0 <= i <= |name| && OccursAt(name, w, i);
      OccursWithin(name, w, '豬', 0, i);
      assert OccursAt(name, "豬", i);
    }
    if Contains(name, "豬") {
      assert "豬" in PorkWords;
    }
  }
}
