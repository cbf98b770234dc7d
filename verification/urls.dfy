/** URL helpers of the frontend manager: composing an agent URL from the agent's base URL and a
    path, and normalising the forward slashes of the result before a request is sent. */
module Urls {

  /** `agentApi + "/" + path`: the base URL, one separating slash, then the path. */
  function GetUrl(agentApi: string, path: string): (r: string)
    ensures |r| == |agentApi| + 1 + |path|
    ensures r[..|agentApi|] == agentApi && r[|agentApi|] == '/' && r[|agentApi| + 1..] == path
  {
    agentApi + "/" + path
  }

  /** No two consecutive forward slashes. */
  predicate NoDoubleSlash(s: string)
  {
    forall i :: 0 <= i < |s| - 1 ==> !(s[i] == '/' && s[i + 1] == '/')
  }

  /** Every `//` is directly preceded by a colon (a scheme separator `://`). */
  predicate DoubleSlashOnlyAfterColon(s: string)
  {
    forall i :: 0 <= i < |s| - 1 && s[i] == '/' && s[i + 1] == '/' ==> 0 < i && s[i - 1] == ':'
  }

  /** No three consecutive forward slashes. */
  predicate NoTripleSlash(s: string)
  {
    forall i :: 0 <= i < |s| - 2 ==> !(s[i] == '/' && s[i + 1] == '/' && s[i + 2] == '/')
  }

  /** The characters of `s` other than forward slashes, in order. */
  function NonSlash(s: string): string
  {
    if s == [] then [] else (if s[0] == '/' then [] else [s[0]]) + NonSlash(s[1..])
  }

  /** `s.replaceAll("/+", "/")`: every run of forward slashes becomes a single one. */
  function CollapseSlashes(s: string): (r: string)
    ensures |r| <= |s|
    ensures |s| > 0 ==> |r| > 0 && r[0] == s[0]
    decreases |s|
  {
    if |s| < 2 then s
    else if s[0] == '/' && s[1] == '/' then CollapseSlashes(s[1..])
    else [s[0]] + CollapseSlashes(s[1..])
  }

  /** `t.replaceAll(":/", "://")`: scanning left to right, each `:/` becomes `://`. */
  function ExpandSchemeSeparators(t: string): (r: string)
    ensures |r| >= |t|
    ensures |t| > 0 ==> |r| > 0 && r[0] == t[0]
    decreases |t|
  {
    if |t| < 2 then t
    else if t[0] == ':' && t[1] == '/' then "://" + ExpandSchemeSeparators(t[2..])
    else [t[0]] + ExpandSchemeSeparators(t[1..])
  }

  /** The suffix of a string without `//` has none either. */
  lemma NoDoubleSlashSuffix(s: string, k: nat)
    requires k <= |s| && NoDoubleSlash(s)
    ensures NoDoubleSlash(s[k..])
  {
    forall i | 0 <= i < |s[k..]| - 1 ensures !(s[k..][i] == '/' && s[k..][i + 1] == '/') {
      assert s[k..][i] == s[i + k] && s[k..][i + 1] == s[i + k + 1];
    }
  }

  /** After collapsing, no `//` remains. */
  lemma {:induction false} CollapseLeavesNoDoubleSlash(s: string)
    ensures NoDoubleSlash(CollapseSlashes(s))
    decreases |s|
  {
    if |s| >= 2 {
      CollapseLeavesNoDoubleSlash(s[1..]);
      if !(s[0] == '/' && s[1] == '/') {
        var rest := CollapseSlashes(s[1..]);
        var r := [s[0]] + rest;
        forall i | 0 <= i < |r| - 1 ensures !(r[i] == '/' && r[i + 1] == '/') {
          if i > 0 {
            assert r[i] == rest[i - 1] && r[i + 1] == rest[i];
          }
        }
      }
    }
  }

  /** Expanding a string without `//` creates `//` only right after a colon, and never `///`. */
  lemma {:induction false} ExpandDoublesOnlyAfterColon(t: string)
    requires NoDoubleSlash(t)
    ensures DoubleSlashOnlyAfterColon(ExpandSchemeSeparators(t))
    ensures NoTripleSlash(ExpandSchemeSeparators(t))
    decreases |t|
  {
    if |t| >= 2 {
      var r := ExpandSchemeSeparators(t);
      if t[0] == ':' && t[1] == '/' {
        NoDoubleSlashSuffix(t, 2);
        ExpandDoublesOnlyAfterColon(t[2..]);
        var rest := ExpandSchemeSeparators(t[2..]);
        assert r == "://" + rest;
        if |rest| > 0 {
          assert !(t[1] == '/' && t[2] == '/');
          assert rest[0] != '/';
        }
        forall i | 0 <= i < |r| - 1 && r[i] == '/' && r[i + 1] == '/' ensures 0 < i && r[i - 1] == ':' {
          if i >= 3 {
            assert r[i] == rest[i - 3] && r[i + 1] == rest[i - 2];
            assert r[i - 1] == rest[i - 4];
          }
        }
        forall i | 0 <= i < |r| - 2 ensures !(r[i] == '/' && r[i + 1] == '/' && r[i + 2] == '/') {
          if i >= 3 {
            assert r[i] == rest[i - 3] && r[i + 1] == rest[i - 2] && r[i + 2] == rest[i - 1];
          }
        }
      } else {
        NoDoubleSlashSuffix(t, 1);
        ExpandDoublesOnlyAfterColon(t[1..]);
        var rest := ExpandSchemeSeparators(t[1..]);
        assert r == [t[0]] + rest;
        assert !(t[0] == '/' && t[1] == '/');
        assert rest[0] == t[1];
        forall i | 0 <= i < |r| - 1 && r[i] == '/' && r[i + 1] == '/' ensures 0 < i && r[i - 1] == ':' {
          if i >= 1 {
            assert r[i] == rest[i - 1] && r[i + 1] == rest[i];
            if i >= 2 {
              assert r[i - 1] == rest[i - 2];
            }
          }
        }
        forall i | 0 <= i < |r| - 2 ensures !(r[i] == '/' && r[i + 1] == '/' && r[i + 2] == '/') {
          if i >= 1 {
            assert r[i] == rest[i - 1] && r[i + 1] == rest[i] && r[i + 2] == rest[i + 1];
          }
        }
      }
    }
  }

  /** The normalisation applied to every URL before a request is sent. */
  function RemoveRedundantForwardSlash(s: string): (r: string)
    ensures DoubleSlashOnlyAfterColon(r)
    ensures NoTripleSlash(r)
  {
    CollapseLeavesNoDoubleSlash(s);
    ExpandDoublesOnlyAfterColon(CollapseSlashes(s));
    ExpandSchemeSeparators(CollapseSlashes(s))
  }

  /** A string without `//` is left unchanged by collapsing. */
  lemma {:induction false} CollapseFixpoint(s: string)
    requires NoDoubleSlash(s)
    ensures CollapseSlashes(s) == s
    decreases |s|
  {
    if |s| >= 2 {
      assert !(s[0] == '/' && s[1] == '/');
      assert NoDoubleSlash(s[1..]) by {
        forall i | 0 <= i < |s[1..]| - 1 ensures !(s[1..][i] == '/' && s[1..][i + 1] == '/') {
          assert s[1..][i] == s[i + 1] && s[1..][i + 1] == s[i + 2];
        }
      }
      CollapseFixpoint(s[1..]);
      assert [s[0]] + s[1..] == s;
    }
  }

  /** Collapsing undoes the scheme expansion of a string that has no `//`. */
  lemma {:induction false} CollapseUndoesExpand(t: string)
    requires NoDoubleSlash(t)
    ensures CollapseSlashes(ExpandSchemeSeparators(t)) == t
    decreases |t|
  {
    if |t| < 2 {
      CollapseFixpoint(t);
    } else if t[0] == ':' && t[1] == '/' {
      var tail := t[2..];
      assert NoDoubleSlash(tail) by {
        forall i | 0 <= i < |tail| - 1 ensures !(tail[i] == '/' && tail[i + 1] == '/') {
          assert tail[i] == t[i + 2] && tail[i + 1] == t[i + 3];
        }
      }
      var rest := ExpandSchemeSeparators(tail);
      CollapseUndoesExpand(tail);
      var e := "://" + rest;
      assert ExpandSchemeSeparators(t) == e;
      assert e[1..] == "//" + rest;
      assert ("//" + rest)[1..] == "/" + rest;
      if |tail| > 0 {
        assert !(t[1] == '/' && t[2] == '/');
        assert rest[0] == tail[0] != '/';
      }
      calc {
        CollapseSlashes(e);
        [':'] + CollapseSlashes("//" + rest);
        [':'] + CollapseSlashes("/" + rest);
        { if |rest| > 0 { assert ("/" + rest)[1..] == rest; } }
        [':'] + ("/" + CollapseSlashes(rest));
        [':'] + ("/" + tail);
        t;
      }
    } else {
      var tail := t[1..];
      assert NoDoubleSlash(tail) by {
        forall i | 0 <= i < |tail| - 1 ensures !(tail[i] == '/' && tail[i + 1] == '/') {
          assert tail[i] == t[i + 1] && tail[i + 1] == t[i + 2];
        }
      }
      var rest := ExpandSchemeSeparators(tail);
      CollapseUndoesExpand(tail);
      var e := [t[0]] + rest;
      assert ExpandSchemeSeparators(t) == e;
      assert !(t[0] == '/' && t[1] == '/');
      assert rest[0] == t[1];
      assert e[1..] == rest;
      assert [t[0]] + tail == t;
    }
  }

  /** Normalising an already normalised URL changes nothing. */
  lemma NormalizationIdempotent(s: string)
    ensures RemoveRedundantForwardSlash(RemoveRedundantForwardSlash(s)) == RemoveRedundantForwardSlash(s)
  {
    CollapseLeavesNoDoubleSlash(s);
    CollapseUndoesExpand(CollapseSlashes(s));
  }

  /** Collapsing only removes slashes: every other character survives, in order. */
  lemma {:induction false} CollapseKeepsNonSlash(s: string)
    ensures NonSlash(CollapseSlashes(s)) == NonSlash(s)
    decreases |s|
  {
    if |s| >= 2 {
      CollapseKeepsNonSlash(s[1..]);
      if s[0] == '/' && s[1] == '/' {
      } else {
        assert ([s[0]] + CollapseSlashes(s[1..]))[1..] == CollapseSlashes(s[1..]);
      }
    }
  }

  /** Expanding scheme separators only adds slashes. */
  lemma {:induction false} ExpandKeepsNonSlash(t: string)
    ensures NonSlash(ExpandSchemeSeparators(t)) == NonSlash(t)
    decreases |t|
  {
    if |t| >= 2 {
      if t[0] == ':' && t[1] == '/' {
        ExpandKeepsNonSlash(t[2..]);
        NonSlashSeparator(ExpandSchemeSeparators(t[2..]));
        NonSlashColonSlash(t);
      } else {
        ExpandKeepsNonSlash(t[1..]);
        assert ([t[0]] + ExpandSchemeSeparators(t[1..]))[1..] == ExpandSchemeSeparators(t[1..]);
      }
    }
  }

  lemma NonSlashSeparator(rest: string)
    ensures NonSlash("://" + rest) == [':'] + NonSlash(rest)
  {
    var s1, s2, s3 := "://" + rest, "//" + rest, "/" + rest;
    assert s1[0] == ':' && s1[1..] == s2;
    assert s2[0] == '/' && s2[1..] == s3;
    assert s3[0] == '/' && s3[1..] == rest;
    assert NonSlash(s3) == NonSlash(rest);
    assert NonSlash(s2) == NonSlash(rest);
  }

  lemma NonSlashColonSlash(t: string)
    requires |t| >= 2 && t[0] == ':' && t[1] == '/'
    ensures NonSlash(t) == [':'] + NonSlash(t[2..])
  {
    assert t[1..][1..] == t[2..];
  }

  /** Normalisation changes nothing but forward slashes. */
  lemma NormalizationKeepsNonSlash(s: string)
    ensures NonSlash(RemoveRedundantForwardSlash(s)) == NonSlash(s)
  {
    CollapseKeepsNonSlash(s);
    ExpandKeepsNonSlash(CollapseSlashes(s));
  }

  /** No colon directly followed by a forward slash. */
  predicate NoColonSlash(s: string)
  {
    forall i :: 0 <= i < |s| - 1 ==> !(s[i] == ':' && s[i + 1] == '/')
  }

  /** Collapsing passes over a prefix that has no `//` and does not join a run of slashes with `b`. */
  lemma {:induction false} CollapseConcat(a: string, b: string)
    requires |a| > 0 && NoDoubleSlash(a)
    requires !(a[|a| - 1] == '/' && |b| > 0 && b[0] == '/')
    ensures CollapseSlashes(a + b) == a + CollapseSlashes(b)
    decreases |a|
  {
    if |a| == 1 {
      if |b| > 0 {
        assert (a + b)[1..] == b;
      }
    } else {
      assert !(a[0] == '/' && a[1] == '/');
      assert NoDoubleSlash(a[1..]) by {
        forall i | 0 <= i < |a[1..]| - 1 ensures !(a[1..][i] == '/' && a[1..][i + 1] == '/') {
          assert a[1..][i] == a[i + 1] && a[1..][i + 1] == a[i + 2];
        }
      }
      CollapseConcat(a[1..], b);
      assert (a + b)[1..] == a[1..] + b;
      assert [a[0]] + a[1..] == a;
    }
  }

  /** The tail of a string without `:/` has none either. */
  lemma NoColonSlashTail(a: string)
    requires |a| > 0 && NoColonSlash(a)
    ensures NoColonSlash(a[1..])
    ensures |a| >= 2 ==> !(a[0] == ':' && a[1] == '/')
  {
    forall i | 0 <= i < |a[1..]| - 1 ensures !(a[1..][i] == ':' && a[1..][i + 1] == '/') {
      assert a[1..][i] == a[i + 1] && a[1..][i + 1] == a[i + 2];
    }
  }

  /** Expansion passes over a prefix that has no `:/` and does not form one with `b`. */
  lemma {:induction false} ExpandConcat(a: string, b: string)
    requires NoColonSlash(a)
    requires !(|a| > 0 && a[|a| - 1] == ':' && |b| > 0 && b[0] == '/')
    ensures ExpandSchemeSeparators(a + b) == a + ExpandSchemeSeparators(b)
    decreases |a|
  {
    if |a| == 0 {
      assert a + b == b;
    } else {
      var tail := a[1..];
      NoColonSlashTail(a);
      ExpandConcat(tail, b);
      ExpandStep(a[0], tail + b);
      ConsConcat(a, b);
    }
  }

  lemma ConsConcat(a: string, b: string)
    requires |a| > 0
    ensures a + b == [a[0]] + (a[1..] + b)
  {
    assert a == [a[0]] + a[1..];
  }

  /** One step of the expansion over a character that does not start `:/`. */
  lemma ExpandStep(c: char, t: string)
    requires !(c == ':' && |t| > 0 && t[0] == '/')
    ensures ExpandSchemeSeparators([c] + t) == [c] + ExpandSchemeSeparators(t)
  {
    var ct := [c] + t;
    assert ct[1..] == t;
    if |t| > 0 {
      assert ct[0] == c && ct[1] == t[0];
    }
  }

  /** Joining `scheme://host/` and `/path` and normalising gives `scheme://host/path`: the duplicated
      slash at the join is removed and the scheme separator is kept. */
  lemma NormalizedJoin(scheme: string, host: string, path: string)
    requires |scheme| > 0 && '/' !in scheme && ':' !in scheme
    requires |host| > 0 && '/' !in host && host[|host| - 1] != ':'
    requires NoDoubleSlash(path) && NoColonSlash(path) && (|path| > 0 ==> path[0] != '/')
    ensures RemoveRedundantForwardSlash(GetUrl(scheme + "://" + host + "/", "/" + path))
            == scheme + "://" + host + "/" + path
  {
    CollapseJoin(scheme, host, path);
    ExpandJoin(scheme, host, path);
    assert scheme + ("://" + (host + ("/" + path))) == scheme + "://" + host + "/" + path;
  }

  /** The collapsing half of NormalizedJoin. */
  lemma CollapseJoin(scheme: string, host: string, path: string)
    requires |scheme| > 0 && '/' !in scheme
    requires |host| > 0 && '/' !in host
    requires NoDoubleSlash(path) && (|path| > 0 ==> path[0] != '/')
    ensures CollapseSlashes(GetUrl(scheme + "://" + host + "/", "/" + path))
            == scheme + (":/" + (host + ("/" + path)))
  {
    var head := scheme + ":";
    var r1 := "/" + (host + ("/" + ("/" + ("/" + path))));
    JoinShape(scheme, host, path);
    CollapseHead(head, r1);
    CollapseHost(host, path);
    assert head + ("/" + (host + ("/" + path))) == scheme + (":/" + (host + ("/" + path)));
  }

  /** The composed URL, regrouped around its slashes. */
  lemma JoinShape(scheme: string, host: string, path: string)
    ensures GetUrl(scheme + "://" + host + "/", "/" + path)
            == (scheme + ":") + ("/" + ("/" + (host + ("/" + ("/" + ("/" + path))))))
  {
  }

  /** Collapsing passes over `scheme:` and merges the `//` after it. */
  lemma CollapseHead(head: string, r1: string)
    requires |head| > 0 && NoDoubleSlash(head) && head[|head| - 1] != '/'
    requires |r1| > 0 && r1[0] == '/'
    ensures CollapseSlashes(head + ("/" + r1)) == head + CollapseSlashes(r1)
  {
    CollapseConcat(head, "/" + r1);
    assert r1 == "/" + r1[1..];
    CollapseDrop(r1[1..]);
  }

  /** Collapsing `/host///path` gives `/host/path`. */
  lemma CollapseHost(host: string, path: string)
    requires |host| > 0 && '/' !in host
    requires NoDoubleSlash(path) && (|path| > 0 ==> path[0] != '/')
    ensures CollapseSlashes("/" + (host + ("/" + ("/" + ("/" + path))))) == "/" + (host + ("/" + path))
  {
    var slashed := "/" + host;
    var r2 := "/" + ("/" + ("/" + path));
    ConcatAssoc("/", host, r2);
    SlashThenNoSlash(host);
    CollapseConcat(slashed, r2);
    CollapseDrop("/" + path);
    CollapseDrop(path);
    SlashThenPath(path);
    CollapseFixpoint("/" + path);
    ConcatAssoc("/", host, "/" + path);
  }

  /** Concatenation is associative. */
  lemma ConcatAssoc(a: string, b: string, c: string)
    ensures (a + b) + c == a + (b + c)
  {
  }

  /** A slash followed by a slash-free string has no `//`. */
  lemma SlashThenNoSlash(host: string)
    requires '/' !in host
    ensures NoDoubleSlash("/" + host)
  {
    var x := "/" + host;
    forall i | 0 <= i < |x| - 1 ensures !(x[i] == '/' && x[i + 1] == '/') {
      assert x[i + 1] == host[i];
    }
  }

  /** A slash followed by a path that has no `//` and does not start with a slash has no `//`. */
  lemma SlashThenPath(path: string)
    requires NoDoubleSlash(path) && (|path| > 0 ==> path[0] != '/')
    ensures NoDoubleSlash("/" + path)
  {
    var x := "/" + path;
    forall i | 0 <= i < |x| - 1 ensures !(x[i] == '/' && x[i + 1] == '/') {
      if i > 0 {
        assert x[i] == path[i - 1] && x[i + 1] == path[i];
      }
    }
  }

  /** The expanding half of NormalizedJoin. */
  lemma ExpandJoin(scheme: string, host: string, path: string)
    requires |scheme| > 0 && ':' !in scheme
    requires '/' !in host && (|host| > 0 ==> host[|host| - 1] != ':')
    requires NoColonSlash(path)
    ensures ExpandSchemeSeparators(scheme + (":/" + (host + ("/" + path))))
            == scheme + ("://" + (host + ("/" + path)))
  {
    var p1 := "/" + path;
    ExpandConcat(scheme, ":/" + (host + p1));
    ExpandColonSlash(host + p1);
    assert NoColonSlash(host);
    ExpandConcat(host, p1);
    ExpandStep('/', path);
    ExpandConcat(path, "");
    assert path + "" == path;
  }

  /** One expansion step over a leading `:/`. */
  lemma ExpandColonSlash(x: string)
    ensures ExpandSchemeSeparators(":/" + x) == "://" + ExpandSchemeSeparators(x)
  {
    assert (":/" + x)[2..] == x;
  }

  /** One collapsing step over a leading `//`. */
  lemma CollapseDrop(x: string)
    ensures CollapseSlashes("/" + ("/" + x)) == CollapseSlashes("/" + x)
  {
    assert ("/" + ("/" + x))[1..] == "/" + x;
  }

  /** The agent URL of the create-vhost command, composed from a base URL with a trailing slash. */
  lemma CreateVhostUrlExample(base: string, path: string)
    requires base == "http://agent:8080/" && path == "/vhostmanager/vhost"
    ensures RemoveRedundantForwardSlash(GetUrl(base, path)) == "http://agent:8080/vhostmanager/vhost"
  {
    ExampleSplit(base, path);
    NormalizedJoin("http", "agent:8080", "vhostmanager/vhost");
  }

  /** How the example URL splits into scheme, host and path. */
  lemma ExampleSplit(base: string, path: string)
    requires base == "http://agent:8080/" && path == "/vhostmanager/vhost"
    ensures "http" + "://" + "agent:8080" + "/" == base
    ensures "/" + "vhostmanager/vhost" == path
    ensures "http" + "://" + "agent:8080" + "/" + "vhostmanager/vhost" == "http://agent:8080/vhostmanager/vhost"
    ensures NoColonSlash("vhostmanager/vhost") && NoDoubleSlash("vhostmanager/vhost")
  {
  }
}
