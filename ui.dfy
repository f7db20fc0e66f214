/**
 * Display helpers repeated across the pages: the overflowing badge strip, WhatsApp and
 * invite links, the `cn` class joiner and word initials.
 */
module Ui {
  import opened Wrappers
  import opened JsMath
  import opened JsText
  import Seqs

  /** A strip of badges: the ones shown, and the `+k` counter when some are hidden. */
  datatype Strip = Strip(shown: seq<string>, more: Option<nat>)

  /**
   * `items.slice(0, limit)` followed by `+(n - limit)` when `n > limit`. Nothing is lost:
   * the shown items are the first ones and the counter accounts for the rest.
   */
  function Overflow(items: seq<string>, limit: nat): (r: Strip)
    ensures |r.shown| == Min(|items|, limit) && r.shown == items[..|r.shown|]
    ensures r.more.Some? <==> |items| > limit
    ensures |r.shown| + r.more.GetOr(0) == |items|
  {
    if |items| > limit then Strip(items[..limit], Some(|items| - limit))
    else Strip(items, None)
  }

  /**
   * What `{n && <Element/>}` renders for a nullable number: nothing for `null`, the bare
   * text `0` for zero (the expression short-circuits to the number, which React prints),
   * and the element carrying the number otherwise.
   */
  datatype Guarded = Omitted | ZeroText | Element(n: int)

  function GuardedNumber(v: Option<int>): (r: Guarded)
    ensures r.Omitted? <==> v.None?
    ensures r.ZeroText? <==> v == Some(0)
    ensures r.Element? <==> v.Some? && v.value != 0
    ensures r.Element? ==> r.n == v.value
  {
    match v
    case None => Omitted
    case Some(n) => if n == 0 then ZeroText else Element(n)
  }

  const WhatsAppPrefix: string := "https://wa.me/"

  /**
   * `https://wa.me/${phone?.replace(/\D/g, "")}`: only the phone's digits follow the
   * prefix; a missing phone interpolates as the text `undefined`.
   */
  function WhatsAppLink(phone: Option<string>): (r: string)
    ensures StartsWith(r, WhatsAppPrefix)
    ensures phone.Some? ==> r[|WhatsAppPrefix|..] == DigitsOnly(phone.value)
    ensures phone.None? ==> r[|WhatsAppPrefix|..] == "undefined"
  {
    WhatsAppPrefix + (if phone.Some? then DigitsOnly(phone.value) else "undefined")
  }

  /** Punctuation in a phone number does not change its link. */
  lemma WhatsAppLinkNormalised(phone: string)
    ensures WhatsAppLink(Some(DigitsOnly(phone))) == WhatsAppLink(Some(phone))
  {
    DigitsOnlyFixed(DigitsOnly(phone));
  }

  const InvitePath: string := "/invite?doulaId="

  /** `${origin}/invite?doulaId=${id}`: the id is exactly the text after the fixed path. */
  function InviteLink(origin: string, id: string): (r: string)
    ensures |r| == |origin| + |InvitePath| + |id|
    ensures r[..|origin|] == origin && r[|origin| + |InvitePath|..] == id
    ensures OccursAt(r, InvitePath, |origin|)
  {
    origin + InvitePath + id
  }

  /**
   * `handleCopyInvite`: nothing is copied without a profile id, otherwise the invite link
   * for that id.
   */
  function CopyInvite(profileId: Option<string>, origin: string): (r: Option<string>)
    ensures r.None? <==> !Truthy(profileId)
    ensures r.Some? ==> r.value == InviteLink(origin, profileId.value)
  {
    if Truthy(profileId) then Some(InviteLink(origin, profileId.value)) else None
  }

  /** The texts of options that are all present, position by position. */
  function Texts(options: seq<Option<string>>): (r: seq<string>)
    requires forall k :: 0 <= k < |options| ==> options[k].Some?
    ensures |r| == |options|
    ensures forall k :: 0 <= k < |r| ==> Some(r[k]) == options[k]
  {
    seq(|options|, k requires 0 <= k < |options| => options[k].value)
  }

  /**
   * The truthy class names among the arguments of `cn`, in order: `classes.filter(Boolean)`
   * with each kept argument read as its text.
   */
  function Kept(classes: seq<Option<string>>): (r: seq<string>)
    ensures |r| == |Seqs.Filter(classes, Truthy)| == Seqs.Count(classes, Truthy)
    ensures forall k :: 0 <= k < |r| ==> Some(r[k]) == Seqs.Filter(classes, Truthy)[k]
    ensures |r| <= |classes|
    ensures forall i :: 0 <= i < |r| ==> r[i] != []
    ensures r == [] <==> forall i :: 0 <= i < |classes| ==> !Truthy(classes[i])
  {
    Seqs.FilterCount(classes, Truthy);
    Texts(Seqs.Filter(classes, Truthy))
  }

  /**
   * `classes.filter(Boolean).join(" ")`, with `false`/`null`/`undefined` as `None`: the
   * truthy class names joined by single spaces.
   */
  function Cn(classes: seq<Option<string>>): (r: string)
    ensures r == Join(Kept(classes), " ")
    ensures r == [] <==> forall i :: 0 <= i < |classes| ==> !Truthy(classes[i])
  {
    var kept := Kept(classes);
    if kept == [] then [] else
      JoinNonEmpty(kept);
      Join(kept, " ")
  }

  /** A join of non-empty pieces is not empty. */
  lemma JoinNonEmpty(parts: seq<string>)
    requires parts != [] && parts[0] != []
    ensures Join(parts, " ") != []
  {
  }

  /** When no class name holds a space, splitting the result of `cn` gives the kept names. */
  lemma CnSplit(classes: seq<Option<string>>)
    requires Kept(classes) != []
    requires forall i :: 0 <= i < |classes| && classes[i].Some? ==> ' ' !in classes[i].value
    ensures Split(Cn(classes), ' ') == Kept(classes)
  {
    KeptHasNoSpace(classes);
    SplitJoin(Kept(classes), ' ');
  }

  lemma KeptHasNoSpace(classes: seq<Option<string>>)
    requires forall i :: 0 <= i < |classes| && classes[i].Some? ==> ' ' !in classes[i].value
    ensures forall k :: 0 <= k < |Kept(classes)| ==> ' ' !in Kept(classes)[k]
  {
    var kept := Seqs.Filter(classes, Truthy);
    forall k | 0 <= k < |Kept(classes)|
      ensures ' ' !in Kept(classes)[k]
    {
      assert kept[k] in multiset(kept);
      assert kept[k] in classes;
      var i :| 0 <= i < |classes| && classes[i] == kept[k];
    }
  }

  /** A word with a first character; `n[0]` of an empty word is `undefined`, which `join` drops. */
  predicate NonEmptyWord(w: string) {
    w != []
  }

  /** `words.map(n => n[0]).join("")`. */
  function Firsts(words: seq<string>): (r: string)
    ensures |r| <= |words|
  {
    if words == [] then []
    else (if words[0] == [] then [] else [words[0][0]]) + Firsts(words[1..])
  }

  /** The characters `Firsts` gives are the first characters of the non-empty words, in order. */
  lemma {:induction false} FirstsOfWords(words: seq<string>)
    ensures |Firsts(words)| == |Seqs.Filter(words, NonEmptyWord)|
    ensures forall k :: 0 <= k < |Firsts(words)| ==>
      Firsts(words)[k] == Seqs.Filter(words, NonEmptyWord)[k][0]
  {
    if words != [] {
      var rest := words[1..];
      FirstsOfWords(rest);
      assert words == [words[0]] + rest;
      if words[0] == [] {
        assert Firsts(words) == Firsts(rest);
        assert Seqs.Filter(words, NonEmptyWord) == Seqs.Filter(rest, NonEmptyWord);
      } else {
        assert Firsts(words) == [words[0][0]] + Firsts(rest);
        assert Seqs.Filter(words, NonEmptyWord) == [words[0]] + Seqs.Filter(rest, NonEmptyWord);
      }
    }
  }

  /**
   * `name.split(" ").map(n => n[0]).join("").substring(0, 2)`: the first characters of the
   * first two non-empty words, or of the only one.
   */
  function WordInitials(name: string): (r: string)
    ensures |r| == Min(2, |Firsts(Split(name, ' '))|)
    ensures r == Firsts(Split(name, ' '))[..|r|]
    ensures |r| == Min(2, |Seqs.Filter(Split(name, ' '), NonEmptyWord)|)
    ensures forall k :: 0 <= k < |r| ==> r[k] == Seqs.Filter(Split(name, ' '), NonEmptyWord)[k][0]
  {
    FirstsOfWords(Split(name, ' '));
    var f := Firsts(Split(name, ' '));
    f[..Min(2, |f|)]
  }

  /** Initials come out empty exactly when the name is made of spaces only. */
  lemma WordInitialsEmptyIff(name: string)
    ensures WordInitials(name) == [] <==> forall i :: 0 <= i < |name| ==> name[i] == ' '
  {
    FirstsSplitWhereEmpty(name, c => c == ' ');
  }

  lemma {:induction false} FirstsSplitWhereEmpty(s: string, isSep: char -> bool)
    ensures Firsts(SplitWhere(s, isSep)) == [] <==> forall i :: 0 <= i < |s| ==> isSep(s[i])
  {
    if s != [] {
      FirstsSplitWhereEmpty(s[1..], isSep);
      assert forall i :: 1 <= i < |s| ==> s[1..][i - 1] == s[i];
      if !isSep(s[0]) {
        var t := SplitWhere(s[1..], isSep);
        assert SplitWhere(s, isSep)[0] == [s[0]] + t[0];
      }
    }
  }

  /** Two space-separated words give the first letter of each. */
  lemma TwoWordInitials(first: string, last: string)
    requires first != [] && last != []
    requires ' ' !in first && ' ' !in last
    ensures WordInitials(first + " " + last) == [first[0], last[0]]
  {
    assert Join([first, last], " ") == first + " " + last;
    SplitJoin([first, last], ' ');
    assert Firsts([last]) == [last[0]];
  }

  /** A name of one word gives its first letter. */
  lemma OneWordInitial(word: string)
    requires word != [] && ' ' !in word
    ensures WordInitials(word) == [word[0]]
  {
    assert Join([word], " ") == word;
    SplitJoin([word], ' ');
  }

  /** Three words give the first letters of the first two only. */
  lemma ThreeWordInitials(first: string, middle: string, last: string)
    requires first != [] && middle != [] && last != []
    requires ' ' !in first && ' ' !in middle && ' ' !in last
    ensures WordInitials(first + " " + middle + " " + last) == [first[0], middle[0]]
  {
    var parts := [first, middle, last];
    SplitThree(first, middle, last);
    Seqs.FilterKeepsAll(parts, NonEmptyWord);
    LeadingInitials(first + " " + middle + " " + last, parts);
  }

  /** When the words of a name are all non-empty, the first two give the initials. */
  lemma LeadingInitials(name: string, words: seq<string>)
    requires |words| >= 2 && Split(name, ' ') == words
    requires Seqs.Filter(words, NonEmptyWord) == words
    ensures WordInitials(name) == [words[0][0], words[1][0]]
  {
    var r := WordInitials(name);
    assert |r| == 2;
  }

  lemma SplitThree(a: string, b: string, c: string)
    requires ' ' !in a && ' ' !in b && ' ' !in c
    ensures Split(a + " " + b + " " + c, ' ') == [a, b, c]
  {
    JoinThree(a, b, c);
    SplitJoin([a, b, c], ' ');
  }

  lemma JoinThree(a: string, b: string, c: string)
    ensures Join([a, b, c], " ") == a + " " + b + " " + c
  {
    assert [a, b, c][1..] == [b, c] && [b, c][1..] == [c];
    assert Join([b, c], " ") == b + " " + c;
  }
}
