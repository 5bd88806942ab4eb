/**
 * Flattening of a job's environment mapping into the single
 * `--environment` argument of the script runner (`_format_envvar`),
 * together with the string splitting a consumer uses to read it back.
 */
module EnvFormat {
  import opened Wrappers

  /** A dict's items in its iteration order. */
  type Env = seq<(string, string)>

  /** `'{}={}'.format(k, v)` */
  function Entry(k: string, v: string): string
  {
    k + "=" + v
  }

  /** The list comprehension `['{}={}'.format(k, v) for k, v in env.items()]`. */
  function Rendered(env: Env): seq<string>
  {
    seq(|env|, i requires 0 <= i < |env| => Entry(env[i].0, env[i].1))
  }

  /** `sep.join(parts)` */
  function Join(sep: string, parts: seq<string>): string
  {
    if |parts| == 0 then ""
    else if |parts| == 1 then parts[0]
    else parts[0] + sep + Join(sep, parts[1..])
  }

  /** `env or {}`: `None` and the empty mapping are both falsy. */
  function OrEmpty(env: Option<Env>): Env
  {
    if env.Some? then env.value else []
  }

  /** `_format_envvar(env)`: the entries as `k=v`, in order, separated by single spaces. */
  function FormatEnvvar(env: Option<Env>): (s: string)
    ensures OrEmpty(env) == [] <==> s == ""
  {
    var parts := Rendered(OrEmpty(env));
    if |parts| == 0 then Join(" ", parts)
    else JoinNonEmpty(" ", parts); Join(" ", parts)
  }

  /** A join of entries that each contain `=` is never empty. */
  lemma {:induction false} JoinNonEmpty(sep: string, parts: seq<string>)
    requires |parts| > 0 && parts[0] != ""
    ensures Join(sep, parts) != ""
  {
    if |parts| > 1 {
      assert Join(sep, parts) == parts[0] + sep + Join(sep, parts[1..]);
    }
  }

  /** `s.split(c)` for a single separator character (keeps empty pieces). */
  function Split(s: string, c: char): (parts: seq<string>)
    ensures |parts| >= 1
  {
    if s == [] then [""]
    else
      var rest := Split(s[1..], c);
      if s[0] == c then [""] + rest else [[s[0]] + rest[0]] + rest[1..]
  }

  /** `s.partition(c)` without the separator: the text before the first `c` and after it. */
  function Partition(s: string, c: char): (string, string)
  {
    if s == [] then ("", "")
    else if s[0] == c then ("", s[1..])
    else
      var r := Partition(s[1..], c);
      ([s[0]] + r.0, r.1)
  }

  /** Reads a flattened environment string back into its entries. */
  function ParseEnvvar(s: string): Env
  {
    if s == "" then []
    else
      var parts := Split(s, ' ');
      seq(|parts|, i requires 0 <= i < |parts| => Partition(parts[i], '='))
  }

  /** An environment whose flattening can be read back: no key or value holds a space and no key holds `=`. */
  predicate Unambiguous(env: Env)
  {
    forall i :: 0 <= i < |env| ==> ' ' !in env[i].0 && ' ' !in env[i].1 && '=' !in env[i].0
  }

  lemma {:induction false} SplitWithout(a: string, c: char)
    requires c !in a
    ensures Split(a, c) == [a]
  {
    if a != [] {
      SplitWithout(a[1..], c);
      assert [a[0]] + a[1..] == a;
    }
  }

  lemma {:induction false} SplitAfter(a: string, c: char, b: string)
    requires c !in a
    ensures Split(a + [c] + b, c) == [a] + Split(b, c)
  {
    if a == [] {
      assert a + [c] + b == [c] + b;
      assert ([c] + b)[1..] == b;
    } else {
      var s := a + [c] + b;
      assert s[0] == a[0] && s[1..] == a[1..] + [c] + b;
      SplitAfter(a[1..], c, b);
      assert [a[0]] + a[1..] == a;
    }
  }

  /** Splitting a join recovers the pieces when no piece holds the separator. */
  lemma {:induction false} SplitJoin(parts: seq<string>, c: char)
    requires |parts| > 0
    requires forall i :: 0 <= i < |parts| ==> c !in parts[i]
    ensures Split(Join([c], parts), c) == parts
  {
    if |parts| == 1 {
      SplitWithout(parts[0], c);
    } else {
      SplitJoin(parts[1..], c);
      SplitAfter(parts[0], c, Join([c], parts[1..]));
      assert parts == [parts[0]] + parts[1..];
    }
  }

  /** Partition at the first `c` undoes `k + [c] + v` when `c` is not in `k`. */
  lemma {:induction false} PartitionEntry(k: string, c: char, v: string)
    requires c !in k
    ensures Partition(k + [c] + v, c) == (k, v)
  {
    var s := k + [c] + v;
    if k == [] {
      assert s == [c] + v;
      assert s[1..] == v;
    } else {
      assert s[0] == k[0] && s[1..] == k[1..] + [c] + v;
      PartitionEntry(k[1..], c, v);
      assert [k[0]] + k[1..] == k;
    }
  }

  /** Flattening is lossless, and keeps the order of the entries, for unambiguous environments. */
  lemma FormatEnvvarRoundTrip(env: Env)
    requires Unambiguous(env)
    ensures ParseEnvvar(FormatEnvvar(Some(env))) == env
  {
    if env != [] {
      var parts := Rendered(env);
      forall i | 0 <= i < |parts|
        ensures ' ' !in parts[i]
      {
        assert parts[i] == env[i].0 + "=" + env[i].1;
      }
      SplitJoin(parts, ' ');
      assert FormatEnvvar(Some(env)) == Join([' '], parts);
      var back := ParseEnvvar(FormatEnvvar(Some(env)));
      assert |back| == |env|;
      forall i | 0 <= i < |env|
        ensures back[i] == env[i]
      {
        PartitionEntry(env[i].0, '=', env[i].1);
        assert parts[i] == env[i].0 + ['='] + env[i].1;
      }
    }
  }

  /** A single entry `{k: v}` flattens to exactly `k=v`. */
  lemma FormatEnvvarSingle(k: string, v: string)
    ensures FormatEnvvar(Some([(k, v)])) == k + "=" + v
  {
    assert Rendered([(k, v)]) == [k + "=" + v];
  }

  /** Adding an entry at the end of the mapping appends ` k=v` to the flattening. */
  lemma {:induction false} FormatEnvvarSnoc(env: Env, k: string, v: string)
    requires env != []
    ensures FormatEnvvar(Some(env + [(k, v)])) == FormatEnvvar(Some(env)) + " " + Entry(k, v)
  {
    JoinSnoc(" ", Rendered(env), Entry(k, v));
    assert Rendered(env + [(k, v)]) == Rendered(env) + [Entry(k, v)];
  }

  lemma {:induction false} JoinSnoc(sep: string, parts: seq<string>, p: string)
    requires parts != []
    ensures Join(sep, parts + [p]) == Join(sep, parts) + sep + p
  {
    if |parts| == 1 {
      assert parts + [p] == [parts[0], p];
    } else {
      JoinSnoc(sep, parts[1..], p);
      assert (parts + [p])[1..] == parts[1..] + [p];
    }
  }

  /** A space inside a value is read back as a new entry: the flattening is lossy then. */
  lemma SpaceInValueIsLossy()
    ensures FormatEnvvar(Some([("a", "b c")])) == "a=b c"
    ensures ParseEnvvar("a=b c") == [("a", "b"), ("c", "")]
  {
    FormatEnvvarSingle("a", "b c");
    assert "a=b c" == "a=b" + [' '] + "c";
    SplitAfter("a=b", ' ', "c");
    SplitWithout("c", ' ');
    assert "a=b" == "a" + ['='] + "b";
    PartitionEntry("a", '=', "b");
    assert "c"[1..] == [] && "c" == ['c'] + [];
    assert Partition("c", '=') == ("c", "");
  }
}
