/**
 * The language switcher: the locale read from the first segment of the
 * path, and the path a language choice navigates to.
 */
module LanguageToggle {
  import opened Base
  import opened Strings

  datatype Locale = Fa | En

  /** The locale's path segment and stored code. */
  function Code(l: Locale): (r: string)
    ensures |r| == 2 && '/' !in r
  {
    match l
    case Fa => "fa"
    case En => "en"
  }

  /** Different locales have different codes. */
  lemma CodeInjective(a: Locale, b: Locale)
    ensures Code(a) == Code(b) <==> a == b
  {
  }

  /** The number of `/` characters at the front of `s`. */
  function LeadingSlashes(s: string): (r: nat)
    ensures r <= |s|
    ensures forall i :: 0 <= i < r ==> s[i] == '/'
    ensures r == |s| || s[r] != '/'
  {
    if s == [] || s[0] != '/' then 0 else 1 + LeadingSlashes(s[1..])
  }

  /** The longest prefix of `s` without a `/`. */
  function Segment(s: string): (r: string)
    ensures |r| <= |s| && r == s[..|r|] && '/' !in r
    ensures |r| == |s| || s[|r|] == '/'
  {
    if s == [] || s[0] == '/' then [] else [s[0]] + Segment(s[1..])
  }

  /**
   * `pathname.split('/').filter(Boolean)[0]`: the first non-empty segment,
   * or nothing when the path is all slashes.
   */
  function FirstSegment(path: string): (r: Option<string>)
    ensures r.None? <==> forall i :: 0 <= i < |path| ==> path[i] == '/'
    ensures r.Some? ==> r.value != [] && '/' !in r.value
  {
    var k := LeadingSlashes(path);
    if k == |path| then None else Some(Segment(path[k..]))
  }

  /** The locale shown for a path: its first segment when that is `fa` or `en`, otherwise `fa`. */
  function DetectLocale(path: string): Locale {
    match FirstSegment(path)
    case Some(segment) => if segment == "en" then En else Fa
    case None => Fa
  }

  /** English is detected exactly when the first segment is `en`; `fa` is the fallback. */
  lemma DetectLocaleSpec(path: string)
    ensures DetectLocale(path) == En <==> FirstSegment(path) == Some("en")
    ensures FirstSegment(path) == Some("fa") ==> DetectLocale(path) == Fa
  {
  }

  /** A path `/<code>` or `/<code>/...` has `code` as its first segment. */
  lemma FirstSegmentOfPrefixed(code: string, rest: string)
    requires code != [] && '/' !in code
    requires rest == [] || rest[0] == '/'
    ensures FirstSegment("/" + code + rest) == Some(code)
  {
    var path := "/" + code + rest;
    assert path[1..] == code + rest;
    assert LeadingSlashes(path[1..]) == 0 by {
      assert path[1..][0] == code[0];
    }
    assert LeadingSlashes(path) == 1;
    SegmentOfPrefixed(code, rest);
  }

  lemma {:induction false} SegmentOfPrefixed(code: string, rest: string)
    requires '/' !in code
    requires rest == [] || rest[0] == '/'
    ensures Segment(code + rest) == code
  {
    if code == [] {
      assert code + rest == rest;
    } else {
      assert (code + rest)[0] == code[0];
      assert (code + rest)[1..] == code[1..] + rest;
      SegmentOfPrefixed(code[1..], rest);
      assert code == [code[0]] + code[1..];
    }
  }

  /** The path `changeLanguage(next)` navigates to from `pathname` while `current` is shown. */
  function NewPath(pathname: string, current: Locale, next: Locale): string {
    var from, to := "/" + Code(current), "/" + Code(next);
    if pathname == "/" then to
    else if pathname == from then to
    else if StartsWith(pathname, from + "/") then ReplaceFirst(pathname, from, to)
    else to
  }

  /** The path is `/<code>` for `l`, or a page under `/<code>/`. */
  predicate PrefixedBy(pathname: string, l: Locale) {
    pathname == "/" + Code(l) || StartsWith(pathname, "/" + Code(l) + "/")
  }

  /**
   * A path under the shown locale keeps everything after the locale
   * segment; any other path goes to the new locale's home page.
   */
  lemma NewPathSpec(pathname: string, current: Locale, next: Locale)
    ensures var to := "/" + Code(next);
      && (StartsWith(pathname, "/" + Code(current) + "/") ==>
            NewPath(pathname, current, next) == to + pathname[|Code(current)| + 1..])
      && (!StartsWith(pathname, "/" + Code(current) + "/") ==> NewPath(pathname, current, next) == to)
  {
    var from := "/" + Code(current);
    if StartsWith(pathname, from + "/") {
      assert StartsWith(pathname, from) by {
        assert pathname[..|from|] == (from + "/")[..|from|];
      }
    }
  }

  /** The new path always begins with the new locale's segment, and is detected as that locale. */
  lemma NewPathDetected(pathname: string, current: Locale, next: Locale)
    ensures PrefixedBy(NewPath(pathname, current, next), next)
    ensures DetectLocale(NewPath(pathname, current, next)) == next
  {
    NewPathSpec(pathname, current, next);
    var r := NewPath(pathname, current, next);
    var to := "/" + Code(next);
    var n := |Code(current)| + 1;
    if StartsWith(pathname, "/" + Code(current) + "/") {
      var rest := pathname[n..];
      assert pathname[..n + 1] == "/" + Code(current) + "/";
      assert rest[0] == '/';
      assert r[..|to| + 1] == to + "/";
      FirstSegmentOfPrefixed(Code(next), rest);
    } else {
      FirstSegmentOfPrefixed(Code(next), []);
      assert to + [] == to;
    }
  }

  /** Choosing the locale already shown on a locale path stays on that path. */
  lemma SameLocaleKeepsPath(pathname: string, l: Locale)
    requires PrefixedBy(pathname, l)
    ensures NewPath(pathname, l, l) == pathname
  {
    NewPathSpec(pathname, l, l);
    var n := |Code(l)| + 1;
    if StartsWith(pathname, "/" + Code(l) + "/") {
      assert pathname == pathname[..n] + pathname[n..];
      assert pathname[..n] == "/" + Code(l) by {
        assert pathname[..n] == (pathname[..n + 1])[..n];
      }
    }
  }

  /** Switching and switching back returns to the page under the original locale. */
  lemma SwitchBack(pathname: string, current: Locale, next: Locale)
    requires PrefixedBy(pathname, current)
    ensures NewPath(NewPath(pathname, current, next), next, current) == pathname
  {
    NewPathSpec(pathname, current, next);
    var r := NewPath(pathname, current, next);
    NewPathSpec(r, next, current);
    var n := |Code(current)| + 1;
    if StartsWith(pathname, "/" + Code(current) + "/") {
      var rest := pathname[n..];
      assert pathname[..n + 1] == "/" + Code(current) + "/";
      assert r[..n + 1] == "/" + Code(next) + "/";
      assert r[n..] == rest;
      assert pathname == pathname[..n] + rest;
      assert pathname[..n] == "/" + Code(current) by {
        assert pathname[..n] == (pathname[..n + 1])[..n];
      }
    }
  }

  /** A page outside the locale segments goes to the new locale's home page and loses its path. */
  lemma UnprefixedPathGoesHome()
    ensures NewPath("/menu", Fa, En) == "/en"
    ensures NewPath("/gallery", En, Fa) == "/fa"
  {
    assert !StartsWith("/menu", "/fa/") by {
      assert "/menu"[..4][1] == 'm';
    }
    assert !StartsWith("/gallery", "/en/") by {
      assert "/gallery"[..4][1] == 'g';
    }
  }

  /** The switcher's state, and what it wrote to storage and to the router. */
  class LanguageSwitcher {
    var isOpen: bool
    var currentLocale: Locale
    /** The `language` entry of local storage. */
    var savedLanguage: Option<string>
    /** The paths pushed to the router, oldest first. */
    var pushed: seq<string>

    constructor()
      ensures !isOpen && currentLocale == Fa && savedLanguage == None && pushed == []
    {
      isOpen := false;
      currentLocale := Fa;
      savedLanguage := None;
      pushed := [];
    }

    /** The effect that runs whenever the path changes. */
    method PathnameChanged(pathname: string)
      modifies this
      ensures currentLocale == DetectLocale(pathname)
      ensures isOpen == old(isOpen) && savedLanguage == old(savedLanguage) && pushed == old(pushed)
    {
      var segment := FirstSegment(pathname);
      if segment == Some("fa") || segment == Some("en") {
        currentLocale := if segment.value == "fa" then Fa else En;
      } else {
        currentLocale := Fa;
      }
    }

    /** The globe button. */
    method ToggleDropdown()
      modifies this
      ensures isOpen == !old(isOpen)
      ensures currentLocale == old(currentLocale) && savedLanguage == old(savedLanguage) && pushed == old(pushed)
    {
      isOpen := !isOpen;
    }

    /** A mouse press, inside the dropdown or not. */
    method MouseDown(inside: bool)
      modifies this
      ensures isOpen == (old(isOpen) && inside)
      ensures currentLocale == old(currentLocale) && savedLanguage == old(savedLanguage) && pushed == old(pushed)
    {
      if !inside {
        isOpen := false;
      }
    }

    /**
     * `changeLanguage(next)` on page `pathname`: saves the choice, pushes
     * the new path and closes the dropdown. The shown locale follows once
     * the path changes.
     */
    method ChangeLanguage(pathname: string, next: Locale) returns (newPath: string)
      modifies this
      ensures newPath == NewPath(pathname, old(currentLocale), next)
      ensures DetectLocale(newPath) == next
      ensures savedLanguage == Some(Code(next)) && pushed == old(pushed) + [newPath]
      ensures !isOpen && currentLocale == old(currentLocale)
    {
      savedLanguage := Some(Code(next));
      var from, to := "/" + Code(currentLocale), "/" + Code(next);
      if pathname == "/" {
        newPath := to;
      } else if pathname == from {
        newPath := to;
      } else if StartsWith(pathname, from + "/") {
        newPath := ReplaceFirst(pathname, from, to);
      } else {
        newPath := to;
      }
      NewPathDetected(pathname, currentLocale, next);
      pushed := pushed + [newPath];
      isOpen := false;
    }
  }
}
