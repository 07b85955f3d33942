/** `extractContent` (src/extractor.js): the readable text of a fetched page.
    Only a 200 answer whose content type mentions `text/html` is read. The
    text elements of the main content container (or of the body, when the
    page has no `article`, `main` or `[role="main"]`) are trimmed, paragraphs
    get a blank line after them, the pieces are joined by newlines, runs of
    three or more newlines are cut to two and the result is trimmed; when that
    leaves nothing, the body text with all whitespace runs collapsed to one
    space is used instead. Fetching and parsing the page are not modelled:
    their outcome, down to the selected elements, is the input. */
module Extractor {
  import opened Wrappers
  import opened Text

  /** One of the `p, h1-h6, li, td, pre` elements: whether it is a `p`, and
      its text. */
  datatype Element = Element(isParagraph: bool, text: string)

  /** The page after the non-content elements were removed: the text elements
      inside the content containers (`None` when there is no container), those
      inside `body`, and the whole text of `body`. */
  datatype Document = Document(containerElements: Option<seq<Element>>, bodyElements: seq<Element>, bodyText: string)

  /** The fetch: it threw (network error, timeout, a status axios rejects, or
      a failure while parsing), or it was answered. */
  datatype Fetch = FetchThrew | Fetched(status: int, contentType: Option<string>, doc: Document)

  /** The acceptance gate. */
  predicate Accepts(status: int, contentType: Option<string>) {
    status == 200 && Filled(contentType) && Contains(contentType.value, "text/html")
  }

  /** The elements of the content container, or of the body without one. */
  function ContentElements(doc: Document): seq<Element> {
    if doc.containerElements.Some? then doc.containerElements.value else doc.bodyElements
  }

  // ---------------------------------------------------------------------------
  // Newline runs
  // ---------------------------------------------------------------------------

  /** No three newlines in a row. */
  predicate NoTriple(s: string) {
    forall i :: 0 <= i < |s| - 2 ==> !(s[i] == '\n' && s[i + 1] == '\n' && s[i + 2] == '\n')
  }

  /** The number of newlines `s` starts with. */
  function NewlineRun(s: string): (k: nat)
    ensures k <= |s| && (forall i :: 0 <= i < k ==> s[i] == '\n') && (k == |s| || s[k] != '\n')
    ensures s != [] && s[0] == '\n' ==> k >= 1
  {
    if s == [] || s[0] != '\n' then 0 else 1 + NewlineRun(s[1..])
  }

  /** `replace(/\n{3,}/g, '\n\n')`: every maximal run of three or more
      newlines becomes two. */
  function CollapseNewlines(s: string): (r: string)
    ensures NoTriple(r)
    ensures r != [] && r[0] == '\n' ==> s != [] && s[0] == '\n'
    decreases |s|
  {
    if s == [] then []
    else if s[0] != '\n' then
      var rest := CollapseNewlines(s[1..]);
      var r := [s[0]] + rest;
      assert forall i :: 1 <= i < |r| ==> r[i] == rest[i - 1];
      r
    else
      var k := NewlineRun(s);
      var rest := CollapseNewlines(s[k..]);
      var run := if k >= 3 then "\n\n" else s[..k];
      var r := run + rest;
      assert 1 <= |run| <= 2;
      assert rest != [] ==> rest[0] != '\n';
      assert forall i :: |run| <= i < |r| ==> r[i] == rest[i - |run|];
      r
  }

  /** Text without a run of three newlines is left as it is. */
  lemma {:induction false} CollapseOfNoTriple(s: string)
    requires NoTriple(s)
    ensures CollapseNewlines(s) == s
    decreases |s|
  {
    if s != [] {
      if s[0] != '\n' {
        assert forall i :: 0 <= i < |s| - 1 ==> s[1..][i] == s[i + 1];
        CollapseOfNoTriple(s[1..]);
        assert [s[0]] + s[1..] == s;
      } else {
        var k := NewlineRun(s);
        if |s| >= 3 {
          assert !(s[0] == '\n' && s[1] == '\n' && s[2] == '\n');
        }
        assert k <= 2;
        assert forall i :: 0 <= i < |s| - k ==> s[k..][i] == s[i + k];
        CollapseOfNoTriple(s[k..]);
        assert s[..k] + s[k..] == s;
      }
    }
  }

  /** Collapsing twice is collapsing once. */
  lemma CollapseIdempotent(s: string)
    ensures CollapseNewlines(CollapseNewlines(s)) == CollapseNewlines(s)
  {
    CollapseOfNoTriple(CollapseNewlines(s));
  }

  /** The text without its newlines. */
  function Unbroken(s: string): (r: string)
    ensures '\n' !in r
  {
    if s == [] then [] else (if s[0] == '\n' then [] else [s[0]]) + Unbroken(s[1..])
  }

  lemma {:induction false} UnbrokenAppend(a: string, b: string)
    ensures Unbroken(a + b) == Unbroken(a) + Unbroken(b)
    decreases |a|
  {
    if a == [] {
      assert a + b == b;
    } else {
      assert (a + b)[0] == a[0] && (a + b)[1..] == a[1..] + b;
      UnbrokenAppend(a[1..], b);
    }
  }

  lemma {:induction false} UnbrokenOfNewlines(s: string)
    requires forall i :: 0 <= i < |s| ==> s[i] == '\n'
    ensures Unbroken(s) == []
    decreases |s|
  {
    if s != [] {
      UnbrokenOfNewlines(s[1..]);
    }
  }

  /** A leading run of newlines leaves nothing behind in `Unbroken`. */
  lemma UnbrokenDropsRun(s: string, k: nat)
    requires k <= |s| && forall i :: 0 <= i < k ==> s[i] == '\n'
    ensures Unbroken(s) == Unbroken(s[k..])
  {
    UnbrokenAppend(s[..k], s[k..]);
    UnbrokenOfNewlines(s[..k]);
    assert s[..k] + s[k..] == s;
  }

  /** Only newlines are removed: every other character is kept, in order. */
  lemma {:induction false} CollapseKeepsText(s: string)
    ensures Unbroken(CollapseNewlines(s)) == Unbroken(s)
    decreases |s|
  {
    if s != [] {
      if s[0] != '\n' {
        var rest := CollapseNewlines(s[1..]);
        assert CollapseNewlines(s) == [s[0]] + rest;
        CollapseKeepsText(s[1..]);
        assert ([s[0]] + rest)[0] == s[0] && ([s[0]] + rest)[1..] == rest;
      } else {
        var k := NewlineRun(s);
        var run := if k >= 3 then "\n\n" else s[..k];
        var rest := CollapseNewlines(s[k..]);
        assert CollapseNewlines(s) == run + rest;
        CollapseKeepsText(s[k..]);
        assert (run + rest)[|run|..] == rest;
        UnbrokenDropsRun(run + rest, |run|);
        UnbrokenDropsRun(s, k);
      }
    }
  }

  lemma NoTripleTrim(s: string)
    requires NoTriple(s)
    ensures NoTriple(Trim(s))
  {
    var a := TrimIsInfix(s);
    var t := Trim(s);
    assert forall i :: 0 <= i < |t| ==> t[i] == s[a + i];
  }

  // ---------------------------------------------------------------------------
  // The primary text
  // ---------------------------------------------------------------------------

  /** The text one element contributes. */
  function Piece(e: Element): string {
    Trim(e.text) + (if e.isParagraph then "\n\n" else "")
  }

  /** `.map(…).get().join('\n')`. */
  function Assembled(elements: seq<Element>): string {
    Join(seq(|elements|, i requires 0 <= i < |elements| => Piece(elements[i])), "\n")
  }

  /** The assembled text, collapsed and trimmed: never three newlines in a
      row, and no whitespace at either end. */
  function PrimaryText(elements: seq<Element>): (r: string)
    ensures NoTriple(r) && IsTrimmed(r)
  {
    var collapsed := CollapseNewlines(Assembled(elements));
    NoTripleTrim(collapsed);
    Trim(collapsed)
  }

  // ---------------------------------------------------------------------------
  // The fallback
  // ---------------------------------------------------------------------------

  /** Every whitespace character is a plain space and no two are adjacent. */
  predicate SingleSpaced(s: string) {
    forall i :: 0 <= i < |s| && IsSpace(s[i]) ==> s[i] == ' ' && (i + 1 == |s| || !IsSpace(s[i + 1]))
  }

  /** The text without its whitespace. */
  function Solid(s: string): (r: string)
    ensures forall i :: 0 <= i < |r| ==> !IsSpace(r[i])
  {
    if s == [] then []
    else
      var rest := Solid(s[1..]);
      var r := (if IsSpace(s[0]) then [] else [s[0]]) + rest;
      assert forall i :: |r| - |rest| <= i < |r| ==> r[i] == rest[i - (|r| - |rest|)];
      r
  }

  lemma {:induction false} SolidAppend(a: string, b: string)
    ensures Solid(a + b) == Solid(a) + Solid(b)
    decreases |a|
  {
    if a == [] {
      assert a + b == b;
    } else {
      assert (a + b)[0] == a[0] && (a + b)[1..] == a[1..] + b;
      SolidAppend(a[1..], b);
    }
  }

  lemma {:induction false} SolidOfBlank(s: string)
    requires AllSpace(s)
    ensures Solid(s) == []
    decreases |s|
  {
    if s != [] {
      SolidOfBlank(s[1..]);
    }
  }

  /** `trim()` removes only whitespace: the non-whitespace is kept, in order. */
  lemma TrimKeepsSolid(s: string)
    ensures Solid(Trim(s)) == Solid(s)
  {
    var a := TrimIsInfix(s);
    var t := Trim(s);
    assert s == s[..a] + t + s[a + |t|..];
    SolidAppend(s[..a] + t, s[a + |t|..]);
    SolidAppend(s[..a], t);
    SolidOfBlank(s[..a]);
    SolidOfBlank(s[a + |t|..]);
  }

  /** `replace(/\s+/g, ' ')`. */
  function CollapseWhitespace(s: string): (r: string)
    ensures SingleSpaced(r)
    ensures r != [] && IsSpace(r[0]) ==> s != [] && IsSpace(s[0])
    decreases |s|
  {
    if s == [] then []
    else if !IsSpace(s[0]) then
      var rest := CollapseWhitespace(s[1..]);
      var r := [s[0]] + rest;
      assert forall i :: 1 <= i < |r| ==> r[i] == rest[i - 1];
      r
    else
      var n := LeadingSpaces(s);
      var rest := CollapseWhitespace(s[n..]);
      var r := " " + rest;
      assert forall i :: 1 <= i < |r| ==> r[i] == rest[i - 1];
      r
  }

  /** Only whitespace is replaced: every other character is kept, in order. */
  lemma {:induction false} CollapseWhitespaceKeepsText(s: string)
    ensures Solid(CollapseWhitespace(s)) == Solid(s)
    decreases |s|
  {
    if s != [] {
      if !IsSpace(s[0]) {
        var rest := CollapseWhitespace(s[1..]);
        assert CollapseWhitespace(s) == [s[0]] + rest;
        CollapseWhitespaceKeepsText(s[1..]);
        assert ([s[0]] + rest)[0] == s[0] && ([s[0]] + rest)[1..] == rest;
      } else {
        var n := LeadingSpaces(s);
        var rest := CollapseWhitespace(s[n..]);
        assert CollapseWhitespace(s) == " " + rest;
        CollapseWhitespaceKeepsText(s[n..]);
        assert (" " + rest)[0] == ' ' && (" " + rest)[1..] == rest;
        LeadingAreSpaces(s);
        assert s == s[..n] + s[n..];
        SolidAppend(s[..n], s[n..]);
        SolidOfBlank(s[..n]);
      }
    }
  }

  /** Collapsing keeps exactly the non-whitespace: the result is all
      whitespace exactly when the input is. */
  lemma {:induction false} CollapseWhitespaceBlank(s: string)
    ensures AllSpace(CollapseWhitespace(s)) <==> AllSpace(s)
    decreases |s|
  {
    if s != [] {
      var r := CollapseWhitespace(s);
      if !IsSpace(s[0]) {
        assert r[0] == s[0];
      } else {
        var n := LeadingSpaces(s);
        var rest := CollapseWhitespace(s[n..]);
        LeadingAreSpaces(s);
        CollapseWhitespaceBlank(s[n..]);
        assert r == " " + rest;
        assert IsSpace(' ');
        assert AllSpace(r) <==> AllSpace(rest) by {
          assert r[0] == ' ';
          assert forall i :: 1 <= i < |r| ==> r[i] == rest[i - 1];
          assert forall j :: 0 <= j < |rest| ==> rest[j] == r[j + 1];
        }
        assert AllSpace(s) <==> AllSpace(s[n..]) by {
          assert forall i :: n <= i < |s| ==> s[i] == s[n..][i - n];
          assert forall i :: 0 <= i < n ==> s[i] == s[..n][i];
        }
      }
    }
  }

  /** Text that is already single-spaced is left as it is. */
  lemma {:induction false} CollapseWhitespaceOfSingleSpaced(s: string)
    requires SingleSpaced(s)
    ensures CollapseWhitespace(s) == s
    decreases |s|
  {
    if s != [] {
      if IsSpace(s[0]) {
        assert LeadingSpaces(s) == 1 by {
          assert |s| == 1 || !IsSpace(s[1]);
          if |s| > 1 {
            assert s[1..][0] == s[1];
          }
        }
      }
      assert forall i :: 0 <= i < |s| - 1 ==> s[1..][i] == s[i + 1];
      CollapseWhitespaceOfSingleSpaced(s[1..]);
      assert [s[0]] + s[1..] == s;
    }
  }

  lemma SingleSpacedTrim(s: string)
    requires SingleSpaced(s)
    ensures SingleSpaced(Trim(s))
  {
    var a := TrimIsInfix(s);
    var t := Trim(s);
    assert forall i :: 0 <= i < |t| ==> t[i] == s[a + i];
  }

  /** `$('body').text().replace(/\s+/g, ' ').trim()`: the body's
      non-whitespace characters in their order, single-spaced and trimmed, and
      empty exactly when the body holds nothing but whitespace. */
  function FallbackText(bodyText: string): (r: string)
    ensures Solid(r) == Solid(bodyText)
    ensures SingleSpaced(r) && IsTrimmed(r)
    ensures r == [] <==> AllSpace(bodyText)
  {
    var collapsed := CollapseWhitespace(bodyText);
    CollapseWhitespaceKeepsText(bodyText);
    TrimKeepsSolid(collapsed);
    SingleSpacedTrim(collapsed);
    CollapseWhitespaceBlank(bodyText);
    AllSpaceTrim(collapsed);
    Trim(collapsed)
  }

  // ---------------------------------------------------------------------------
  // extractContent
  // ---------------------------------------------------------------------------

  /** The whole function: `null` (here `None`) exactly when the fetch threw or
      the page fails the gate, so it never rejects; otherwise trimmed text,
      possibly empty. */
  function ExtractContent(f: Fetch): (r: Option<string>)
    ensures r.None? <==> f.FetchThrew? || !Accepts(f.status, f.contentType)
    ensures r.Some? ==> IsTrimmed(r.value)
  {
    if f.FetchThrew? || !Accepts(f.status, f.contentType) then None
    else
      var extractedText := PrimaryText(ContentElements(f.doc));
      if extractedText == [] then Some(FallbackText(f.doc.bodyText)) else Some(extractedText)
  }

  /** An accepted page yields the primary text when it is not empty, with no
      run of three newlines; otherwise the fallback over the body text, which
      keeps the body's non-whitespace in order and is empty, and still
      returned, when the body is blank. */
  lemma ExtractedText(status: int, contentType: Option<string>, doc: Document)
    requires Accepts(status, contentType)
    ensures var r := ExtractContent(Fetched(status, contentType, doc));
      var primary := PrimaryText(ContentElements(doc));
      && r.Some?
      && (primary != [] ==> r.value == primary && NoTriple(r.value))
      && (primary == [] ==> r.value == FallbackText(doc.bodyText) && Solid(r.value) == Solid(doc.bodyText)
                              && SingleSpaced(r.value) && (r.value == [] <==> AllSpace(doc.bodyText)))
  {
  }
}
