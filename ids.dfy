/** The ID resolver (helpers.go): the route parameter that names a resource
    instance, and the fallback scan of the raw URL path used when a parent's
    middleware cannot see a child's typed parameter. */
module Ids {

  /** The route parameter key for a resource type: its name followed by "ID". */
  function IdParamKey(name: string): (key: string)
    ensures |key| == |name| + 2 && key[..|name|] == name && key[|name|..] == "ID"
  {
    name + "ID"
  }

  /** Distinct resource names give distinct parameter keys, so the keys of
      APIs nested along one URL path never clash. */
  lemma IdParamKeyInjective(a: string, b: string)
    ensures IdParamKey(a) == IdParamKey(b) <==> a == b
  {
  }

  /** The convention shown for the resource "widget". */
  lemma WidgetKey()
    ensures IdParamKey("widget") == "widgetID"
  {
  }

  /** `sub` occurs in `s` starting at index `j`. */
  predicate OccursAt(s: string, sub: string, j: int) {
    0 <= j && j + |sub| <= |s| && s[j..j + |sub|] == sub
  }

  /** `strings.Index` from position `i` on: the first occurrence at or after
      `i`, or -1 when there is none. */
  function IndexFrom(s: string, sub: string, i: nat): (r: int)
    requires i <= |s|
    ensures r == -1 || (i <= r && OccursAt(s, sub, r))
    ensures r == -1 ==> forall j :: i <= j && OccursAt(s, sub, j) ==> false
    ensures r != -1 ==> forall j :: i <= j < r ==> !OccursAt(s, sub, j)
    decreases |s| - i
  {
    if i + |sub| > |s| then -1
    else if s[i..i + |sub|] == sub then i
    else IndexFrom(s, sub, i + 1)
  }

  /** `strings.Index(s, sub)`: the index of the first occurrence of `sub` in
      `s`, or -1 when `sub` does not occur. */
  function IndexOf(s: string, sub: string): (r: int)
    ensures r == -1 <==> forall j :: !OccursAt(s, sub, j)
    ensures r != -1 ==> OccursAt(s, sub, r) && forall j :: 0 <= j < r ==> !OccursAt(s, sub, j)
  {
    IndexFrom(s, sub, 0)
  }

  /** `strings.TrimPrefix(s, "/")`. */
  function TrimSlash(s: string): (r: string)
    ensures |s| > 0 && s[0] == '/' ==> s == "/" + r
    ensures !(|s| > 0 && s[0] == '/') ==> r == s
  {
    if |s| > 0 && s[0] == '/' then s[1..] else s
  }

  /** `findIDParam`: the path segment that follows the first occurrence of
      `base` in `path`, or "" when `base` does not occur. */
  function FindIdParam(path: string, base: string): (r: string)
    ensures '/' !in r
    ensures IndexOf(path, base) == -1 ==> r == ""
    ensures IndexOf(path, base) != -1 ==>
      var rest := TrimSlash(path[IndexOf(path, base) + |base|..]);
      r <= rest && (r == rest || rest[|r|] == '/')
  {
    var index := IndexOf(path, base);
    if index == -1 then ""
    else
      var rest := TrimSlash(path[index + |base|..]);
      var cut := IndexOf(rest, "/");
      if cut == -1 then
        NoSlash(rest);
        rest
      else
        SlashBefore(rest, cut);
        rest[..cut]
  }

  /** A string in which "/" does not occur holds no '/'. */
  lemma NoSlash(s: string)
    requires IndexOf(s, "/") == -1
    ensures '/' !in s
  {
    forall k | 0 <= k < |s| ensures s[k] != '/' {
      assert !OccursAt(s, "/", k);
      assert s[k..k + 1] == [s[k]];
    }
  }

  /** The text before the first "/" holds no '/', and a '/' follows it. */
  lemma SlashBefore(s: string, cut: int)
    requires cut != -1 && cut == IndexOf(s, "/")
    ensures 0 <= cut < |s| && s[cut] == '/'
    ensures '/' !in s[..cut]
  {
    assert OccursAt(s, "/", cut);
    assert s[cut..cut + 1] == [s[cut]];
    forall k | 0 <= k < cut ensures s[..cut][k] != '/' {
      assert !OccursAt(s, "/", k);
      assert s[k..k + 1] == [s[k]];
    }
  }

  /** An occurrence with none before it is the one `strings.Index` finds. */
  lemma IndexOfFirst(path: string, base: string, k: nat)
    requires OccursAt(path, base, k)
    requires forall j :: 0 <= j < k ==> !OccursAt(path, base, j)
    ensures IndexOf(path, base) == k
  {
  }

  /** A scan result that holds no '/' and stops at the end or at a '/' of
      `tail` is the first segment of `tail`. */
  lemma FirstSegment(tail: string, id: string, rest: string, r: string)
    requires '/' !in id && (rest == [] || rest[0] == '/') && tail == id + rest
    requires '/' !in r && r <= tail && (r == tail || tail[|r|] == '/')
    ensures r == id
  {
    assert forall k :: 0 <= k < |id| ==> tail[k] == id[k];
    if rest != [] {
      assert tail[|id|] == '/';
      assert tail[..|id|] == id;
    }
  }

  /** For a path of the form pre + base + "/" + id + rest, where `base` does
      not occur earlier, `id` holds no '/' and `rest` is empty or starts a new
      segment, the scan yields `id`. With `pre` the parent's base and ID, this
      is how a child API finds its own ID. */
  lemma {:induction false} FindIdParamNested(pre: string, base: string, id: string, rest: string)
    requires '/' !in id
    requires rest == [] || rest[0] == '/'
    requires forall j :: 0 <= j < |pre| ==> !OccursAt(pre + base + "/" + id + rest, base, j)
    ensures FindIdParam(pre + base + "/" + id + rest, base) == id
  {
    var path := pre + base + "/" + id + rest;
    assert path[|pre|..|pre| + |base|] == base;
    IndexOfFirst(path, base, |pre|);
    assert path[|pre| + |base|..] == "/" + (id + rest);
    FirstSegment(id + rest, id, rest, FindIdParam(path, base));
  }

  /** The base is matched as a substring, not as a path segment: when the
      path starts with a longer base that extends this one (the parent
      "/users" for the child "/user"), the scan returns the extra characters
      of that longer base, whatever follows. */
  lemma {:induction false} FindIdParamMatchesSubstring(base: string, extra: string, more: string)
    requires extra != [] && '/' !in extra
    ensures FindIdParam(base + extra + "/" + more, base) == extra
  {
    var path := base + extra + "/" + more;
    assert path[..|base|] == base;
    IndexOfFirst(path, base, 0);
    assert path[|base|..] == extra + ("/" + more);
    assert extra[0] != '/';
    FirstSegment(extra + ("/" + more), extra, "/" + more, FindIdParam(path, base));
  }

  /** The collection path itself carries no ID: a path that ends with
      `base` yields "". */
  lemma FindIdParamAtBase(prefix: string, base: string)
    requires forall j :: 0 <= j < |prefix| ==> !OccursAt(prefix + base, base, j)
    ensures FindIdParam(prefix + base, base) == ""
  {
  }

  /** A path that does not mention `base` yields "". */
  lemma FindIdParamAbsent(path: string, base: string)
    requires forall j :: !OccursAt(path, base, j)
    ensures FindIdParam(path, base) == ""
  {
  }
}
