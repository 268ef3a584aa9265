/**
 * The editor's generic mutator: a dotted path such as "button.radius" is
 * split at the dots, the configuration is copied, the copy is walked down
 * to the container of the last segment and that one entry is overwritten.
 */
module Paths {
  import opened Options
  import opened JsonValues

  /** `s.split(sep)`: the pieces between the separators, empty ones included. */
  function Split(s: string, sep: char): (parts: seq<string>)
    ensures |parts| >= 1
    ensures forall i :: 0 <= i < |parts| ==> sep !in parts[i]
  {
    if s == [] then [""]
    else
      var rest := Split(s[1..], sep);
      if s[0] == sep then [""] + rest
      else [[s[0]] + rest[0]] + rest[1..]
  }

  /** `parts.join(sep)`. */
  function Join(parts: seq<string>, sep: char): string
    requires |parts| >= 1
  {
    if |parts| == 1 then parts[0] else parts[0] + [sep] + Join(parts[1..], sep)
  }

  /** Joining the pieces of a split gives back the text. */
  lemma {:induction false} JoinSplit(s: string, sep: char)
    ensures Join(Split(s, sep), sep) == s
  {
    if s != [] {
      var rest := Split(s[1..], sep);
      JoinSplit(s[1..], sep);
      if s[0] == sep {
        assert ([""] + rest)[1..] == rest;
        assert s == [sep] + s[1..];
      } else {
        var parts := [[s[0]] + rest[0]] + rest[1..];
        if |rest| == 1 {
          assert s == [s[0]] + s[1..];
        } else {
          assert parts[1..] == rest[1..];
          assert Join(rest, sep) == rest[0] + [sep] + Join(rest[1..], sep);
          assert s == [s[0]] + s[1..];
        }
      }
    }
  }

  /** Splitting a text whose first piece `w` has no separator. */
  lemma {:induction false} SplitAfterPiece(w: string, t: string, sep: char)
    requires sep !in w
    ensures Split(w + t, sep) == [w + Split(t, sep)[0]] + Split(t, sep)[1..]
  {
    if w != [] {
      var st := Split(t, sep);
      assert (w + t)[0] == w[0] != sep;
      assert (w + t)[1..] == w[1..] + t;
      SplitAfterPiece(w[1..], t, sep);
      var rest := Split(w[1..] + t, sep);
      assert rest[0] == w[1..] + st[0] && rest[1..] == st[1..];
      assert [w[0]] + rest[0] == w + st[0];
    } else {
      var st := Split(t, sep);
      assert w + t == t;
      assert w + st[0] == st[0];
      assert st == [st[0]] + st[1..];
    }
  }

  /** Splitting pieces that hold no separator, once joined, gives back the pieces. */
  lemma {:induction false} SplitJoin(parts: seq<string>, sep: char)
    requires |parts| >= 1
    requires forall i :: 0 <= i < |parts| ==> sep !in parts[i]
    ensures Split(Join(parts, sep), sep) == parts
  {
    if |parts| == 1 {
      SplitAfterPiece(parts[0], [], sep);
      assert parts[0] + [] == parts[0];
    } else {
      var tail := Join(parts[1..], sep);
      SplitJoin(parts[1..], sep);
      SplitAfterPiece(parts[0], [sep] + tail, sep);
      assert parts[0] + [sep] + tail == parts[0] + ([sep] + tail);
      assert ([sep] + tail)[1..] == tail;
      var st := Split([sep] + tail, sep);
      assert st == [""] + parts[1..];
      assert parts[0] + st[0] == parts[0];
      assert st[1..] == parts[1..];
      assert parts == [parts[0]] + parts[1..];
    }
  }

  /** "section.field" splits into the section and the field name. */
  lemma SplitDotted(section: string, field: string)
    requires '.' !in section && '.' !in field
    ensures Split(section + "." + field, '.') == [section, field]
  {
    SplitJoin([section, field], '.');
    assert Join([section, field], '.') == section + "." + field;
  }

  /** A name with no dot is a one-segment path. */
  lemma SplitPlain(key: string)
    requires '.' !in key
    ensures Split(key, '.') == [key]
  {
    SplitJoin([key], '.');
  }

  /**
   * The walk down `parts` succeeds: every segment but the last names an
   * object-valued entry of the container reached so far. (In JavaScript any
   * other intermediate makes the walk or the final write throw.)
   */
  predicate Walkable(m: Config, parts: seq<string>)
    decreases |parts|
  {
    |parts| >= 1 &&
    (|parts| == 1 || (parts[0] in m && m[parts[0]].JObj? && Walkable(m[parts[0]].fields, parts[1..])))
  }

  /** The configuration with the entry at `parts` overwritten by `v`. */
  function SetIn(m: Config, parts: seq<string>, v: Json): (r: Config)
    requires Walkable(m, parts)
    ensures r.Keys == m.Keys + {parts[0]}
    ensures forall k :: k in m && k != parts[0] ==> r[k] == m[k]
    decreases |parts|
  {
    if |parts| == 1 then m[parts[0] := v]
    else m[parts[0] := JObj(SetIn(m[parts[0]].fields, parts[1..], v))]
  }

  /** Reading the entry at a path of object keys; None where the path leads nowhere. */
  function GetIn(m: Config, parts: seq<string>): Option<Json>
    requires |parts| >= 1
    decreases |parts|
  {
    if parts[0] !in m then None
    else if |parts| == 1 then Some(m[parts[0]])
    else if m[parts[0]].JObj? then GetIn(m[parts[0]].fields, parts[1..])
    else None
  }

  /** Neither path is a prefix of the other: they part at some segment. */
  predicate Diverge(p: seq<string>, q: seq<string>)
    decreases |p|
  {
    |p| >= 1 && |q| >= 1 && (p[0] != q[0] || Diverge(p[1..], q[1..]))
  }

  /** After the write, the addressed entry holds the new value. */
  lemma {:induction false} SetThenGet(m: Config, parts: seq<string>, v: Json)
    requires Walkable(m, parts)
    ensures GetIn(SetIn(m, parts, v), parts) == Some(v)
    decreases |parts|
  {
    if |parts| > 1 {
      SetThenGet(m[parts[0]].fields, parts[1..], v);
    }
  }

  /** The write changes nothing at any path that parts from the written one. */
  lemma {:induction false} SetFrame(m: Config, parts: seq<string>, q: seq<string>, v: Json)
    requires Walkable(m, parts)
    requires Diverge(parts, q)
    ensures GetIn(SetIn(m, parts, v), q) == GetIn(m, q)
    decreases |parts|
  {
    if parts[0] == q[0] {
      assert |parts| > 1 && |q| > 1;
      SetFrame(m[parts[0]].fields, parts[1..], q[1..], v);
    }
  }

  /**
   * A one-segment path ("layout") replaces that top-level entry and keeps
   * every other one.
   */
  lemma SetTopLevel(m: Config, key: string, v: Json)
    ensures Walkable(m, [key])
    ensures SetIn(m, [key], v) == m[key := v]
  {
  }

  /**
   * A two-segment path ("section.field") into an object section writes the
   * field, keeps every other field of that section and every other
   * top-level entry.
   */
  lemma SetSectionField(m: Config, section: string, field: string, v: Json)
    requires section in m && m[section].JObj?
    ensures Walkable(m, [section, field])
    ensures var r := SetIn(m, [section, field], v);
      && r.Keys == m.Keys
      && r[section].JObj?
      && r[section].fields.Keys == m[section].fields.Keys + {field}
      && r[section].fields[field] == v
      && (forall g :: g in m[section].fields && g != field ==> r[section].fields[g] == m[section].fields[g])
      && (forall k :: k in m && k != section ==> r[k] == m[k])
  {
    assert [section, field][1..] == [field];
  }

  /**
   * `chain[0..n]` are the containers met walking `parts` down from
   * `chain[0]`: each is the object under the previous one's segment.
   */
  ghost predicate IsChain(chain: seq<Config>, parts: seq<string>, n: nat)
  {
    |chain| == n + 1 && n < |parts| &&
    forall k :: 0 <= k < n ==> parts[k] in chain[k] && chain[k][parts[k]].JObj? && chain[k + 1] == chain[k][parts[k]].fields
  }

  /** Every container on a walkable chain can be walked the rest of the way. */
  lemma {:induction false} ChainWalkable(chain: seq<Config>, parts: seq<string>, n: nat, k: nat)
    requires IsChain(chain, parts, n) && Walkable(chain[0], parts) && k <= n
    ensures Walkable(chain[k], parts[k..])
    decreases k
  {
    if k > 0 {
      ChainWalkable(chain, parts, n, k - 1);
      assert parts[k - 1..][1..] == parts[k..];
    } else {
      assert parts[0..] == parts;
    }
  }

  /** One level of the write: overwrite inside the object under `key`. */
  lemma SetInStep(c: Config, parts: seq<string>, v: Json)
    requires |parts| >= 2 && parts[0] in c && c[parts[0]].JObj?
    requires Walkable(c[parts[0]].fields, parts[1..])
    ensures Walkable(c, parts)
    ensures SetIn(c, parts, v) == c[parts[0] := JObj(SetIn(c[parts[0]].fields, parts[1..], v))]
  {
  }

  /**
   * The body of the mutator: split the path, walk a copy of the configuration
   * down to the container of the last segment, write the value there. The
   * containers met on the way are remembered in `chain`; JavaScript writes
   * into the last of them in place, which every container above sees
   * through the shared references, and the second loop rebuilds those
   * containers to the same effect.
   */
  method Assign(prev: Config, path: string, v: Json) returns (next: Config)
    requires Walkable(prev, Split(path, '.'))
    ensures next == SetIn(prev, Split(path, '.'), v)
  {
    var parts := Split(path, '.');
    var chain: seq<Config> := [prev];
    var i := 0;
    ChainWalkable(chain, parts, 0, 0);
    while i < |parts| - 1
      invariant IsChain(chain, parts, i) && chain[0] == prev
      invariant Walkable(chain[i], parts[i..])
    {
      assert parts[i..][1..] == parts[i + 1..];
      chain := chain + [chain[i][parts[i]].fields];
      i := i + 1;
    }
    assert parts[i..] == [parts[i]];
    var cur := chain[i][parts[i] := v];
    while i > 0
      invariant IsChain(chain, parts, |chain| - 1) && i < |chain|
      invariant Walkable(chain[i], parts[i..])
      invariant cur == SetIn(chain[i], parts[i..], v)
    {
      i := i - 1;
      ChainWalkable(chain, parts, |chain| - 1, i);
      assert parts[i..][1..] == parts[i + 1..];
      SetInStep(chain[i], parts[i..], v);
      cur := chain[i][parts[i] := JObj(cur)];
    }
    assert parts[0..] == parts;
    next := cur;
  }
}
