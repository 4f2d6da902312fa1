/** The free-text classifiers of `bot/handlers.py` and the decision the
    project-link step takes on them. */
module Classifier {
  import opened Wrappers
  import opened Text

  /** `_norm`: `(text or "").strip()`; empty exactly for a missing text or one
      made of whitespace only. */
  function Norm(text: Option<string>): (r: string)
    ensures r == [] <==> (text.None? || forall i :: 0 <= i < |text.value| ==> IsSpace(text.value[i]))
    ensures r == [] || (!IsSpace(r[0]) && !IsSpace(r[|r| - 1]))
  {
    Strip(text.GetOr(""))
  }

  /** The refusal phrases, compared after lower-casing and removing spaces
      (so the spaced entry can only ever match through "нехочу"). */
  const DeclinePhrases: set<string> := {"нехочу", "не хочу", "declined", "нет", "skip"}

  /** `_is_decline` */
  predicate IsDecline(text: string) {
    RemoveChar(Lower(text), ' ') in DeclinePhrases
  }

  /** `_is_valid_http_url`: an explicit scheme is required. */
  predicate IsValidHttpUrl(text: string) {
    var t := Strip(text);
    StartsWith(t, "http://") || StartsWith(t, "https://")
  }

  /** The parts of `parts` that are not blank (`if w.strip()`): every kept
      part is one of `parts` and not blank, and every non-blank part is kept. */
  function NonBlank(parts: seq<string>): (r: seq<string>)
    ensures |r| <= |parts|
    ensures forall j :: 0 <= j < |r| ==> r[j] in parts && Strip(r[j]) != []
    ensures forall i :: 0 <= i < |parts| && Strip(parts[i]) != [] ==> parts[i] in r
  {
    if parts == [] then []
    else (if Strip(parts[0]) != [] then [parts[0]] else []) + NonBlank(parts[1..])
  }

  /** The filter keeps the order: filtering a concatenation filters each half
      and concatenates the results. */
  lemma {:induction false} NonBlankAppend(a: seq<string>, b: seq<string>)
    ensures NonBlank(a + b) == NonBlank(a) + NonBlank(b)
  {
    if a != [] {
      assert (a + b)[1..] == a[1..] + b;
      NonBlankAppend(a[1..], b);
    } else {
      assert a + b == b;
    }
  }

  /** The words of a note: newlines become spaces, the text is split on single
      spaces and the blank pieces are dropped. */
  function Words(t: string): seq<string> {
    NonBlank(SplitOn(ReplaceChar(t, '\n', ' '), ' '))
  }

  /** `_is_reasonable_nda_note`: at least 8 characters and at least two words. */
  predicate IsReasonableNdaNote(text: string)
    ensures IsReasonableNdaNote(text) ==>
      |Strip(text)| >= 8 && (' ' in Strip(text) || '\n' in Strip(text))
  {
    var t := Strip(text);
    OneWordWithoutSeparator(t);
    t != [] && |t| >= 8 && |Words(t)| >= 2
  }

  /** Two words need a separator: a text with neither a space nor a newline
      has at most one word. */
  lemma {:induction false} OneWordWithoutSeparator(t: string)
    ensures ' ' !in t && '\n' !in t ==> |Words(t)| <= 1
  {
    if ' ' in t || '\n' in t { return; }
    var r := ReplaceChar(t, '\n', ' ');
    assert forall i :: 0 <= i < |r| ==> r[i] == t[i];
    assert r == t;
    assert SplitOn(r, ' ') == [r];
  }

  /** What the project-link step makes of the user's text. */
  datatype LinkDecision =
    | EmptyText    // nothing but whitespace: ask for a link or "не хочу"
    | BadFormat    // none of the accepted forms: list them again
    | Declined
    | Url(url: string)
    | NdaMarker
    | NdaNote(note: string)
  {
    predicate Accepted() {
      !EmptyText? && !BadFormat?
    }

    /** The `project_link` value an accepted decision stores. */
    function ProjectLink(): string
      requires Accepted()
    {
      match this
      case Declined => "declined"
      case Url(u) => u
      case NdaMarker => "nda"
      case NdaNote(_) => "nda"
    }

    /** The `project_note` value: the note itself, for a described NDA. */
    function ProjectNote(): Option<string> {
      if NdaNote? then Some(note) else None
    }
  }

  /** `link_handler`'s classification, in its fixed order: decline, then an
      http(s) URL, then the bare word "nda", then an NDA note. */
  function ClassifyLink(text: Option<string>): (d: LinkDecision)
    ensures d.EmptyText? <==> Norm(text) == []
    ensures d.Declined? ==> IsDecline(Norm(text))
    ensures d.Url? ==> d.url == Norm(text) && (StartsWith(d.url, "http://") || StartsWith(d.url, "https://"))
    ensures d.NdaMarker? ==> Lower(Norm(text)) == "nda"
    ensures d.NdaNote? ==> d.note == Norm(text) && |d.note| >= 8 && (' ' in d.note || '\n' in d.note)
    ensures d.BadFormat? ==> var t := Norm(text);
      !IsDecline(t) && !IsValidHttpUrl(t) && Lower(t) != "nda" && !IsReasonableNdaNote(t)
    ensures Norm(text) != [] && IsDecline(Norm(text)) ==> d == Declined
    ensures var t := Norm(text);
      t != [] && !IsDecline(t) && !IsValidHttpUrl(t) && Lower(t) != "nda" && IsReasonableNdaNote(t) ==>
        d == NdaNote(t)
  {
    var t := Norm(text);
    StripTrimmed(t);
    if t == [] then EmptyText
    else if IsDecline(t) then Declined
    else if IsValidHttpUrl(t) then Url(t)
    else if Lower(t) == "nda" then NdaMarker
    else if IsReasonableNdaNote(t) then
      OneWordWithoutSeparator(t);
      NdaNote(t)
    else BadFormat
  }

  /** A text that would pass as an NDA note but starts with a scheme is kept
      as a URL: the URL test comes first. */
  lemma UrlBeatsNote(text: Option<string>)
    requires Norm(text) != [] && !IsDecline(Norm(text))
    requires StartsWith(Norm(text), "http://") || StartsWith(Norm(text), "https://")
    ensures ClassifyLink(text) == Url(Norm(text))
  {
    StripTrimmed(Norm(text));
  }

  /** "nda" in any letter case, with surrounding whitespace, is the NDA marker. */
  lemma NdaMarkerIgnoresCase(text: Option<string>)
    requires Lower(Norm(text)) == "nda"
    ensures ClassifyLink(text) == NdaMarker
  {
    var t := Norm(text);
    StripTrimmed(t);
    assert |t| == 3;
    assert !IsDecline(t) by {
      RemoveAbsentChar("nda", ' ');
      assert "nda" !in DeclinePhrases;
    }
    assert !IsValidHttpUrl(t) by {
      assert Strip(t) == t;
    }
    assert ClassifyLink(text) == NdaMarker by {
      assert t != [];
      assert Lower(t) == "nda";
    }
  }

  /** A single token that is neither a refusal, a URL with a scheme nor "nda"
      is turned away — whatever it looks like (a bare domain, "ok", …). */
  lemma SingleTokenRejected(text: Option<string>)
    requires Norm(text) != [] && ' ' !in Norm(text) && '\n' !in Norm(text)
    requires !IsDecline(Norm(text)) && !IsValidHttpUrl(Norm(text)) && Lower(Norm(text)) != "nda"
    ensures ClassifyLink(text) == BadFormat
  {
    var t := Norm(text);
    StripTrimmed(t);
    OneWordWithoutSeparator(t);
  }

  /** A text longer than every refusal phrase that has no space in it is not
      a refusal. */
  lemma LongWordNotDecline(t: string)
    requires ' ' !in t && |t| > 8
    ensures !IsDecline(t)
  {
    var l := Lower(t);
    assert ' ' !in l by {
      forall i | 0 <= i < |l| ensures l[i] != ' ' {
        assert t[i] != ' ';
      }
    }
    RemoveAbsentChar(l, ' ');
  }

  /** A bare domain — one word of more than eight characters without a
      scheme — is turned away, although the source has a domain detector. */
  lemma BareDomainRejected(t: string)
    requires |t| > 8 && forall i :: 0 <= i < |t| ==> !IsSpace(t[i])
    requires !StartsWith(t, "http://") && !StartsWith(t, "https://")
    ensures ClassifyLink(Some(t)) == BadFormat
  {
    StripTrimmed(t);
    assert ' ' !in t && '\n' !in t by {
      assert IsSpace(' ') && IsSpace('\n');
    }
    LongWordNotDecline(t);
    assert |Lower(t)| != 3;
    SingleTokenRejected(Some(t));
  }

  /** "github.com", a bare domain, is rejected. */
  lemma BareDomainExample()
    ensures ClassifyLink(Some("github.com")) == BadFormat
  {
    var g := "github.com";
    assert g[..7][0] == 'g' && g[..8][0] == 'g';
    BareDomainRejected(g);
  }

  /** "https://github.com" is kept as the project link. */
  lemma SchemeDomainExample()
    ensures ClassifyLink(Some("https://github.com")) == Url("https://github.com")
  {
    var u := "https://github.com";
    assert u[0] == 'h' && u[|u| - 1] == 'm';
    StripTrimmed(u);
    assert Norm(Some(u)) == u;
    assert ' ' !in u;
    LongWordNotDecline(u);
    assert u[..8] == "https://";
    UrlBeatsNote(Some(u));
  }

  lemma LowerSpacedRefusal()
    ensures Lower("Не хочу") == "не хочу"
  {
  }

  lemma RemoveSpaceSpacedRefusal()
    ensures RemoveChar("не хочу", ' ') == "нехочу"
  {
    var a, b := "не", "хочу";
    assert ' ' !in a && ' ' !in b;
    RemoveOneSpace(a, b);
    assert a + " " + b == "не хочу";
    assert a + b == "нехочу";
  }

  /** "Не хочу" is a refusal: case and inner spaces do not matter. */
  lemma SpacedRefusal()
    ensures IsDecline("Не хочу")
  {
    LowerSpacedRefusal();
    RemoveSpaceSpacedRefusal();
    assert "нехочу" in DeclinePhrases;
  }

  /** " Не хочу " is classified as a refusal. */
  lemma DeclineExample()
    ensures ClassifyLink(Some(" Не хочу ")) == Declined
  {
    var t := "Не хочу";
    assert t[0] == 'Н' && t[|t| - 1] == 'у';
    assert Norm(Some(" Не хочу ")) == t;
    SpacedRefusal();
  }

  /** `_looks_like_domain_without_scheme`: defined in the source but not called
      by `link_handler`. */
  predicate LooksLikeDomainWithoutScheme(text: string) {
    var t := Lower(Strip(text));
    && t != []
    && !StartsWith(t, "http://") && !StartsWith(t, "https://")
    && ' ' !in t
    && (|| ('.' in t && exists suf | suf in DomainSuffixes :: EndsWith(t, suf))
        || Contains(t, ".com/") || Contains(t, ".ru/") || Contains(t, ".io/")
        || Contains(t, ".ai/") || Contains(t, ".dev/"))
  }

  /** The unused detector would have recognised "github.com" as a domain. */
  lemma DetectorFlagsBareDomain()
    ensures LooksLikeDomainWithoutScheme("github.com")
  {
    var g := "github.com";
    assert g[0] == 'g' && g[|g| - 1] == 'm';
    StripTrimmed(g);
    assert Lower(g) == g;
    assert g[6] == '.';
    assert g[|g| - 4..] == ".com";
    assert EndsWith(g, ".com");
    assert g[..7][0] == 'g' && g[..8][0] == 'g';
  }

  const DomainSuffixes: set<string> := {".com", ".net", ".org", ".io", ".ai", ".ru", ".dev", ".app", ".me", ".co"}
}
