/** Sensitive keys that a node's configuration must not hold inline. */
module InlineConfig {
  import opened Json

  const FORBIDDEN: set<string> :=
    {"api_key", "arguments", "authorization", "output", "password", "prompt", "secret", "token"}

  /**
   * The letter that `str.lower` gives where it is an ASCII one, with a hyphen read as an
   * underscore. The Kelvin sign is the one character outside ASCII that `lower` maps into it.
   */
  function Lowered(c: char): char {
    if 'A' <= c <= 'Z' then c - 'A' + 'a'
    else if c == '\U{212A}' then 'k'
    else if c == '-' then '_'
    else c
  }

  function Normalized(key: string): (r: string)
    ensures |r| == |key| && forall i | 0 <= i < |r| :: r[i] == Lowered(key[i])
  {
    seq(|key|, i requires 0 <= i < |key| => Lowered(key[i]))
  }

  datatype Part = Field(key: string) | Index(i: nat)

  type Path = seq<Part>

  /** The path leads through the value to a forbidden key. */
  predicate Names(v: Json, p: Path)
    decreases |p|
  {
    p != [] &&
    match p[0]
    case Field(k) =>
      && v.Obj? && k in v.fields
      && (if |p| == 1 then Normalized(k) in FORBIDDEN else Names(v.fields[k], p[1..]))
    case Index(i) => v.Arr? && i < |v.items| && |p| > 1 && Names(v.items[i], p[1..])
  }

  /** Some forbidden key stands somewhere inside the value. */
  predicate Sensitive(v: Json)
    decreases v
  {
    match v
    case Obj(m) => exists k | k in m :: Normalized(k) in FORBIDDEN || Sensitive(m[k])
    case Arr(xs) => exists i | 0 <= i < |xs| :: Sensitive(xs[i])
    case _ => false
  }

  lemma {:induction false} NamedIsSensitive(v: Json, p: Path)
    requires Names(v, p)
    ensures Sensitive(v)
    decreases |p|
  {
    hide Normalized;
    match p[0]
    case Field(k) =>
      if |p| > 1 {
        NamedIsSensitive(v.fields[k], p[1..]);
      }
    case Index(i) => NamedIsSensitive(v.items[i], p[1..]);
  }

  lemma NamesInside(v: Json, part: Part, inner: Path)
    requires inner != []
    ensures Names(v, [part] + inner) <==>
            match part
            case Field(k) => v.Obj? && k in v.fields && Names(v.fields[k], inner)
            case Index(i) => v.Arr? && i < |v.items| && Names(v.items[i], inner)
  {
    hide Normalized;
    assert ([part] + inner)[1..] == inner;
  }

  lemma {:induction false} SensitiveIsNamed(v: Json)
    requires Sensitive(v)
    ensures exists p: Path :: Names(v, p)
    decreases v
  {
    hide Normalized;
    match v
    case Obj(m) =>
      var k :| k in m && (Normalized(k) in FORBIDDEN || Sensitive(m[k]));
      if Normalized(k) in FORBIDDEN {
        assert Names(v, [Field(k)]);
      } else {
        SensitiveIsNamed(m[k]);
        var p: Path :| Names(m[k], p);
        NamesInside(v, Field(k), p);
      }
    case Arr(xs) =>
      var i :| 0 <= i < |xs| && Sensitive(xs[i]);
      SensitiveIsNamed(xs[i]);
      var p: Path :| Names(xs[i], p);
      NamesInside(v, Index(i), p);
  }

  /** A value is sensitive exactly when some path through it names a forbidden key. */
  lemma SensitiveMeans(v: Json)
    ensures Sensitive(v) <==> exists p: Path :: Names(v, p)
  {
    hide Sensitive, Names;
    if Sensitive(v) {
      SensitiveIsNamed(v);
    }
    if p: Path :| Names(v, p) {
      NamedIsSensitive(v, p);
    }
  }

  // ---------------------------------------------------------------- the search

  function Prefixed(part: Part, paths: seq<Path>): (r: seq<Path>)
    ensures |r| == |paths| && forall i | 0 <= i < |r| :: r[i] == [part] + paths[i]
  {
    seq(|paths|, i requires 0 <= i < |paths| => [part] + paths[i])
  }

  lemma PrefixedMembers(part: Part, paths: seq<Path>, p: Path)
    ensures p in Prefixed(part, paths) <==> p != [] && p[0] == part && p[1..] in paths
  {
    var r := Prefixed(part, paths);
    if p in r {
      var i :| 0 <= i < |r| && r[i] == p;
      assert p[1..] == paths[i];
    }
    if p != [] && p[0] == part && p[1..] in paths {
      var i :| 0 <= i < |paths| && paths[i] == p[1..];
      assert r[i] == p;
    }
  }

  /** The paths of `v` that start with this part. */
  predicate NamesFrom(v: Json, part: Part, p: Path) {
    p != [] && p[0] == part && Names(v, p)
  }

  /** `_forbidden_config_paths`: exactly the paths that name a forbidden key. */
  method ForbiddenPaths(v: Json) returns (paths: seq<Path>)
    ensures forall p :: p in paths <==> Names(v, p)
    decreases v, 1
  {
    match v {
      case Obj(_) => paths := InFields(v);
      case Arr(_) => paths := InItems(v);
      case _ => paths := [];
    }
  }

  method InFields(v: Json) returns (paths: seq<Path>)
    requires v.Obj?
    ensures forall p :: p in paths <==> Names(v, p)
    decreases v, 0
  {
    hide Normalized, Names;
    paths := [];
    var todo := v.fields.Keys;
    while todo != {}
      invariant todo <= v.fields.Keys
      invariant forall p :: p in paths <==> exists k | k in v.fields.Keys - todo :: NamesFrom(v, Field(k), p)
      decreases todo
    {
      var k :| k in todo;
      var inner := ForbiddenPaths(v.fields[k]);
      var found := (if Normalized(k) in FORBIDDEN then [[Field(k)]] else []) + Prefixed(Field(k), inner);
      forall p ensures p in found <==> NamesFrom(v, Field(k), p) {
        FieldPaths(v, k, inner, p);
      }
      paths := paths + found;
      todo := todo - {k};
    }
    forall p ensures p in paths <==> Names(v, p) {
      StartsInside(v, p);
    }
  }

  method InItems(v: Json) returns (paths: seq<Path>)
    requires v.Arr?
    ensures forall p :: p in paths <==> Names(v, p)
    decreases v, 0
  {
    hide Normalized, Names;
    paths := [];
    var i := 0;
    while i < |v.items|
      invariant 0 <= i <= |v.items|
      invariant forall p :: p in paths <==> exists k | 0 <= k < i :: NamesFrom(v, Index(k), p)
    {
      var inner := ForbiddenPaths(v.items[i]);
      var found := Prefixed(Index(i), inner);
      forall p ensures p in found <==> NamesFrom(v, Index(i), p) {
        ItemPaths(v, i, inner, p);
      }
      paths := paths + found;
      i := i + 1;
    }
    forall p ensures p in paths <==> Names(v, p) {
      StartsInside(v, p);
    }
  }

  lemma FieldPaths(v: Json, k: string, inner: seq<Path>, p: Path)
    requires v.Obj? && k in v.fields && forall q :: q in inner <==> Names(v.fields[k], q)
    ensures p in (if Normalized(k) in FORBIDDEN then [[Field(k)]] else []) + Prefixed(Field(k), inner) <==> NamesFrom(v, Field(k), p)
  {
    hide Normalized;
    PrefixedMembers(Field(k), inner, p);
    if p != [] && p[0] == Field(k) {
      if |p| == 1 {
        assert p == [Field(k)] && p[1..] == [];
      } else {
        assert p == [Field(k)] + p[1..];
        NamesInside(v, Field(k), p[1..]);
      }
    }
  }

  lemma ItemPaths(v: Json, i: nat, inner: seq<Path>, p: Path)
    requires v.Arr? && i < |v.items| && forall q :: q in inner <==> Names(v.items[i], q)
    ensures p in Prefixed(Index(i), inner) <==> NamesFrom(v, Index(i), p)
  {
    hide Normalized;
    PrefixedMembers(Index(i), inner, p);
    if p != [] && p[0] == Index(i) {
      if |p| == 1 {
        assert p[1..] == [];
      } else {
        assert p == [Index(i)] + p[1..];
        NamesInside(v, Index(i), p[1..]);
      }
    }
  }

  lemma StartsInside(v: Json, p: Path)
    ensures Names(v, p) && v.Obj? ==> p[0].Field? && p[0].key in v.fields && NamesFrom(v, Field(p[0].key), p)
    ensures Names(v, p) && v.Arr? ==> p[0].Index? && p[0].i < |v.items| && NamesFrom(v, Index(p[0].i), p)
  {
    hide Normalized;
  }
}
