/** The object-key template of the S3 output: `String#gsub(%r(%{[^}]+}))`
    with a block that looks each placeholder name up in a small value map.
    A name the map does not hold yields nil, which gsub turns into "". */
module KeyTemplate {
  import opened Basics

  /** True when `p` is exactly one match of %{[^}]+}: "%{", a non-empty run of
      characters other than '}', and the closing '}'. */
  predicate IsPlaceholderText(p: string)
  {
    && |p| >= 4
    && p[0] == '%' && p[1] == '{' && p[|p| - 1] == '}'
    && '}' !in p[2..|p| - 1]
  }

  /** A match at the start of a template: the name between the braces and
      the number of characters the match covers. */
  datatype Placeholder = Placeholder(name: string, len: nat)

  /** The first '}' at or after position `from`. */
  function FindClose(t: string, from: nat): (r: Option<nat>)
    ensures r.Some? ==> from <= r.value < |t|
    decreases |t| - from
  {
    if from >= |t| then None
    else if t[from] == '}' then Some(from)
    else FindClose(t, from + 1)
  }

  lemma {:induction false} FindCloseSpec(t: string, from: nat)
    ensures FindClose(t, from).Some? ==>
              var j := FindClose(t, from).value;
              from <= j < |t| && t[j] == '}' && forall k :: from <= k < j ==> t[k] != '}'
    ensures FindClose(t, from).None? ==> forall k :: from <= k < |t| ==> t[k] != '}'
    decreases |t| - from
  {
    if from < |t| && t[from] != '}' {
      FindCloseSpec(t, from + 1);
    }
  }

  /** The regular expression's match at position 0 of `t`, if there is one.
      A match must close at the first '}' after "%{" and may not be empty. */
  function PlaceholderAt(t: string): (m: Option<Placeholder>)
    ensures m.Some? ==> 4 <= m.value.len <= |t|
  {
    if |t| >= 2 && t[0] == '%' && t[1] == '{' then
      match FindClose(t, 2)
      case Some(j) => if j > 2 then Some(Placeholder(t[2..j], j + 1)) else None
      case None => None
    else None
  }

  /** PlaceholderAt finds exactly the prefixes of `t` that match %{[^}]+}. */
  lemma PlaceholderAtSpec(t: string)
    ensures PlaceholderAt(t).Some? ==>
              var m := PlaceholderAt(t).value;
              m.len <= |t| && IsPlaceholderText(t[..m.len]) && m.name == t[2..m.len - 1]
    ensures PlaceholderAt(t).None? ==> forall n :: 0 <= n <= |t| ==> !IsPlaceholderText(t[..n])
  {
    if |t| >= 2 && t[0] == '%' && t[1] == '{' {
      FindCloseSpec(t, 2);
      match FindClose(t, 2)
      case Some(j) =>
        if j > 2 {
          assert '}' !in t[..j + 1][2..j];
        } else {
          assert forall n :: 0 <= n <= |t| && n >= 4 ==> t[..n][2] == '}';
        }
      case None =>
        assert forall n :: 4 <= n <= |t| ==> t[..n][n - 1] == t[n - 1];
    } else {
      assert forall n :: 4 <= n <= |t| ==> t[..n][0] == t[0] && t[..n][1] == t[1];
    }
  }

  /** The block's value for a name: the map entry, or "" for nil. */
  function Lookup(values: map<string, string>, name: string): string
  {
    if name in values then values[name] else ""
  }

  /** The template with every match of %{[^}]+} replaced, left to right and without
      rescanning the replacement, by the value for the name between the braces. */
  function Expand(t: string, values: map<string, string>): (r: string)
    ensures '%' !in t ==> r == t
    decreases |t|
  {
    if t == [] then []
    else match PlaceholderAt(t)
      case Some(m) => Lookup(values, m.name) + Expand(t[m.len..], values)
      case None => [t[0]] + Expand(t[1..], values)
  }

  // ---------------------------------------------------------------------
  // Templates written as a sequence of pieces

  /** A template read as literal text and %{name} placeholders. */
  datatype Piece = Literal(text: string) | Field(name: string)

  /** A literal holds no '%', so no match can start inside it; a field's name is
      a non-empty run without '}', so the field is one match of its own. */
  predicate WellFormedPiece(p: Piece)
  {
    match p
    case Literal(s) => '%' !in s
    case Field(n) => |n| > 0 && '}' !in n
  }

  predicate WellFormed(ps: seq<Piece>)
  {
    forall i :: 0 <= i < |ps| ==> WellFormedPiece(ps[i])
  }

  function PieceText(p: Piece): string
  {
    match p
    case Literal(s) => s
    case Field(n) => "%{" + n + "}"
  }

  /** The template text that the pieces spell. */
  function Build(ps: seq<Piece>): string
  {
    if ps == [] then "" else PieceText(ps[0]) + Build(ps[1..])
  }

  function PieceValue(p: Piece, values: map<string, string>): string
  {
    match p
    case Literal(s) => s
    case Field(n) => Lookup(values, n)
  }

  /** The intended reading of a template: literals copied, fields replaced. */
  function Render(ps: seq<Piece>, values: map<string, string>): string
  {
    if ps == [] then "" else PieceValue(ps[0], values) + Render(ps[1..], values)
  }

  /** Text without '%' is copied unchanged. */
  lemma {:induction false} ExpandLiteralPrefix(s: string, rest: string, values: map<string, string>)
    requires '%' !in s
    ensures Expand(s + rest, values) == s + Expand(rest, values)
    decreases |s|
  {
    if s != [] {
      var t := s + rest;
      assert t[0] == s[0] && s[0] != '%';
      assert PlaceholderAt(t).None?;
      assert t[1..] == s[1..] + rest;
      ExpandLiteralPrefix(s[1..], rest, values);
      assert Expand(t, values) == [s[0]] + Expand(s[1..] + rest, values);
      assert s == [s[0]] + s[1..];
    } else {
      assert s + rest == rest;
    }
  }

  /** A %{name} token is replaced by the value for `name` and expansion goes on after it. */
  lemma ExpandFieldPrefix(name: string, rest: string, values: map<string, string>)
    requires |name| > 0 && '}' !in name
    ensures Expand("%{" + name + "}" + rest, values) == Lookup(values, name) + Expand(rest, values)
  {
    var t := "%{" + name + "}" + rest;
    var close := 2 + |name|;
    assert t[close] == '}';
    assert forall k :: 2 <= k < close ==> t[k] == name[k - 2];
    FindCloseSpec(t, 2);
    assert FindClose(t, 2) == Some(close);
    assert t[2..close] == name;
    assert t[close + 1..] == rest;
  }

  /** Every placeholder of a well-formed template is replaced by its map value
      and every literal is copied: gsub agrees with Render. */
  lemma {:induction false} ExpandBuild(ps: seq<Piece>, values: map<string, string>)
    requires WellFormed(ps)
    ensures Expand(Build(ps), values) == Render(ps, values)
    decreases |ps|
  {
    if ps != [] {
      assert WellFormedPiece(ps[0]);
      assert WellFormed(ps[1..]) by {
        forall i | 0 <= i < |ps[1..]| ensures WellFormedPiece(ps[1..][i]) {
          assert ps[1..][i] == ps[i + 1];
        }
      }
      ExpandBuild(ps[1..], values);
      match ps[0]
      case Literal(s) =>
        ExpandLiteralPrefix(s, Build(ps[1..]), values);
      case Field(n) =>
        assert Build(ps) == "%{" + n + "}" + Build(ps[1..]);
        ExpandFieldPrefix(n, Build(ps[1..]), values);
    }
  }

  // ---------------------------------------------------------------------
  // The object keys `write` probes

  /** `values_for_s3_object_key` at probe index `index`; gsub writes the Integer
      index with to_s. */
  function KeyValues(path: string, timeSlice: string, index: nat): map<string, string>
  {
    map["path" := path, "time_slice" := timeSlice, "file_extension" := "gz",
        "index" := NatToString(index)]
  }

  /** A placeholder whose name the map lacks, such as %{hostname} in the
      object-key values, is replaced by nothing. */
  lemma AbsentNameExpandsToNothing(name: string, rest: string, values: map<string, string>)
    requires |name| > 0 && '}' !in name && name !in values
    ensures Expand("%{" + name + "}" + rest, values) == Expand(rest, values)
  {
    ExpandFieldPrefix(name, rest, values);
  }

  /** The object-key values hold path, time_slice, file_extension and index only. */
  lemma KeyValuesNames(path: string, timeSlice: string, index: nat, name: string)
    ensures name in KeyValues(path, timeSlice, index)
            <==> name == "path" || name == "time_slice" || name == "file_extension" || name == "index"
    ensures Lookup(KeyValues(path, timeSlice, index), "hostname") == ""
  {
  }

  /** The key `write` tries at probe index `index`. */
  function ObjectKey(format: string, path: string, timeSlice: string, index: nat): string
  {
    Expand(format, KeyValues(path, timeSlice, index))
  }

  /** The default `s3_object_key_format`, "%{path}%{time_slice}_%{index}.%{file_extension}". */
  const DefaultKeyFormat: string :=
    "%{path}" + ("%{time_slice}" + ("_" + ("%{index}" + ("." + "%{file_extension}"))))

  /** The default format read as pieces. */
  const DefaultKeyPieces: seq<Piece> :=
    [Field("path"), Field("time_slice"), Literal("_"), Field("index"), Literal("."),
     Field("file_extension")]

  lemma DefaultKeyPiecesWellFormed()
    ensures WellFormed(DefaultKeyPieces)
  {
  }

  lemma BuildDefaultKeyPieces()
    ensures Build(DefaultKeyPieces) == DefaultKeyFormat
  {
    var ps := DefaultKeyPieces;
    var p, t, i, e := "%{path}", "%{time_slice}", "%{index}", "%{file_extension}";
    assert PieceText(ps[5]) == e;
    assert PieceText(ps[3]) == i;
    assert PieceText(ps[1]) == t;
    assert PieceText(ps[0]) == p;
    assert Build(ps[6..]) == "";
    assert Build(ps[5..]) == e;
    assert Build(ps[4..]) == "." + e;
    assert Build(ps[3..]) == i + ("." + e);
    assert Build(ps[2..]) == "_" + (i + ("." + e));
    assert Build(ps[1..]) == t + ("_" + (i + ("." + e)));
    assert Build(ps) == p + (t + ("_" + (i + ("." + e))));
  }

  lemma RenderDefaultKeyPieces(v: map<string, string>)
    ensures Render(DefaultKeyPieces, v)
         == Lookup(v, "path") + (Lookup(v, "time_slice") + ("_" + (Lookup(v, "index") + ("."
            + Lookup(v, "file_extension")))))
  {
    var ps := DefaultKeyPieces;
    var e, i, t, p := Lookup(v, "file_extension"), Lookup(v, "index"), Lookup(v, "time_slice"),
      Lookup(v, "path");
    assert PieceValue(ps[5], v) == e;
    assert PieceValue(ps[4], v) == ".";
    assert PieceValue(ps[3], v) == i;
    assert PieceValue(ps[2], v) == "_";
    assert PieceValue(ps[1], v) == t;
    assert PieceValue(ps[0], v) == p;
    assert Render(ps[6..], v) == "";
    assert Render(ps[5..], v) == e;
    assert Render(ps[4..], v) == "." + e;
    assert Render(ps[3..], v) == i + ("." + e);
    assert Render(ps[2..], v) == "_" + (i + ("." + e));
    assert Render(ps[1..], v) == t + ("_" + (i + ("." + e)));
    assert Render(ps, v) == p + (t + ("_" + (i + ("." + e))));
  }

  /** With the default format the key is path + time slice + "_" + index + ".gz". */
  lemma DefaultObjectKey(path: string, timeSlice: string, index: nat)
    ensures ObjectKey(DefaultKeyFormat, path, timeSlice, index)
         == path + timeSlice + "_" + NatToString(index) + ".gz"
  {
    var v := KeyValues(path, timeSlice, index);
    DefaultKeyPiecesWellFormed();
    ExpandBuild(DefaultKeyPieces, v);
    BuildDefaultKeyPieces();
    RenderDefaultKeyPieces(v);
  }

  /** With no existing object the default format yields path + time slice + "_0.gz". */
  lemma DefaultFirstKey(path: string, timeSlice: string)
    ensures ObjectKey(DefaultKeyFormat, path, timeSlice, 0) == path + timeSlice + "_0.gz"
  {
    DefaultObjectKey(path, timeSlice, 0);
    assert NatToString(0) == "0";
  }

  /** The default format gives every probe index its own key. */
  lemma DefaultKeysDistinct(path: string, timeSlice: string)
    ensures KeysDistinct(DefaultKeyFormat, path, timeSlice)
  {
    DefaultKeyPiecesWellFormed();
    BuildDefaultKeyPieces();
    assert DefaultKeyPieces[3] == Field("index");
    IndexFieldMakesKeysDistinct(DefaultKeyPieces, path, timeSlice);
  }

  /** The keys of distinct probe indices differ, so the probe never revisits a key. */
  ghost predicate KeysDistinct(format: string, path: string, timeSlice: string)
  {
    forall i: nat, j: nat ::
      ObjectKey(format, path, timeSlice, i) == ObjectKey(format, path, timeSlice, j) ==> i == j
  }

  /** Only index fields render differently at different probe indices. */
  lemma PieceValueAtIndex(p: Piece, path: string, timeSlice: string, i: nat, j: nat)
    requires p != Field("index")
    ensures PieceValue(p, KeyValues(path, timeSlice, i)) == PieceValue(p, KeyValues(path, timeSlice, j))
  {
  }

  /** A longer index numeral never shortens a rendering, and lengthens it when
      the template has an index field. */
  lemma {:induction false} RenderLengthMonotone(ps: seq<Piece>, path: string, timeSlice: string, i: nat, j: nat)
    requires |NatToString(i)| <= |NatToString(j)|
    ensures |Render(ps, KeyValues(path, timeSlice, i))| <= |Render(ps, KeyValues(path, timeSlice, j))|
    ensures Field("index") in ps && |NatToString(i)| < |NatToString(j)| ==>
              |Render(ps, KeyValues(path, timeSlice, i))| < |Render(ps, KeyValues(path, timeSlice, j))|
    decreases |ps|
  {
    if ps != [] {
      RenderLengthMonotone(ps[1..], path, timeSlice, i, j);
      if ps[0] != Field("index") {
        PieceValueAtIndex(ps[0], path, timeSlice, i, j);
        assert Field("index") in ps ==> Field("index") in ps[1..];
      }
    }
  }

  lemma {:induction false} RenderInjective(ps: seq<Piece>, path: string, timeSlice: string, i: nat, j: nat)
    requires Field("index") in ps
    requires Render(ps, KeyValues(path, timeSlice, i)) == Render(ps, KeyValues(path, timeSlice, j))
    ensures i == j
    decreases |ps|
  {
    var vi, vj := KeyValues(path, timeSlice, i), KeyValues(path, timeSlice, j);
    if ps[0] == Field("index") {
      var di, dj := NatToString(i), NatToString(j);
      if |di| < |dj| {
        RenderLengthMonotone(ps, path, timeSlice, i, j);
      } else if |dj| < |di| {
        RenderLengthMonotone(ps, path, timeSlice, j, i);
      }
      assert |di| == |dj|;
      assert Render(ps, vi) == di + Render(ps[1..], vi);
      assert Render(ps, vj) == dj + Render(ps[1..], vj);
      assert di == Render(ps, vi)[..|di|];
      assert dj == Render(ps, vj)[..|dj|];
      NatToStringInjective(i, j);
    } else {
      assert Field("index") in ps[1..];
      PieceValueAtIndex(ps[0], path, timeSlice, i, j);
      var p := PieceValue(ps[0], vi);
      assert Render(ps, vi) == p + Render(ps[1..], vi);
      assert Render(ps, vj) == p + Render(ps[1..], vj);
      assert Render(ps[1..], vi) == Render(ps, vi)[|p|..];
      assert Render(ps[1..], vj) == Render(ps, vj)[|p|..];
      RenderInjective(ps[1..], path, timeSlice, i, j);
    }
  }

  /** A well-formed template holding a %{index} field gives every probe index its own key. */
  lemma IndexFieldMakesKeysDistinct(ps: seq<Piece>, path: string, timeSlice: string)
    requires WellFormed(ps) && Field("index") in ps
    ensures KeysDistinct(Build(ps), path, timeSlice)
  {
    forall i: nat, j: nat | ObjectKey(Build(ps), path, timeSlice, i) == ObjectKey(Build(ps), path, timeSlice, j)
      ensures i == j
    {
      ExpandBuild(ps, KeyValues(path, timeSlice, i));
      ExpandBuild(ps, KeyValues(path, timeSlice, j));
      RenderInjective(ps, path, timeSlice, i, j);
    }
  }

  lemma {:induction false} RenderWithoutIndex(ps: seq<Piece>, path: string, timeSlice: string, i: nat)
    requires Field("index") !in ps
    ensures Render(ps, KeyValues(path, timeSlice, i)) == Render(ps, KeyValues(path, timeSlice, 0))
    decreases |ps|
  {
    if ps != [] {
      PieceValueAtIndex(ps[0], path, timeSlice, i, 0);
      assert Field("index") !in ps[1..];
      RenderWithoutIndex(ps[1..], path, timeSlice, i);
    }
  }

  /** A template without %{index} yields the same key at every probe index: once
      that key exists, no index is free and the probe loop of `write` never ends. */
  lemma NoIndexFieldNoFreeKey(ps: seq<Piece>, path: string, timeSlice: string, existing: set<string>)
    requires WellFormed(ps) && Field("index") !in ps
    requires ObjectKey(Build(ps), path, timeSlice, 0) in existing
    ensures forall i: nat :: ObjectKey(Build(ps), path, timeSlice, i) in existing
  {
    forall i: nat ensures ObjectKey(Build(ps), path, timeSlice, i) in existing {
      ExpandBuild(ps, KeyValues(path, timeSlice, i));
      ExpandBuild(ps, KeyValues(path, timeSlice, 0));
      RenderWithoutIndex(ps, path, timeSlice, i);
    }
  }

  function KeysBelow(format: string, path: string, timeSlice: string, n: nat): set<string>
  {
    set i: nat | i < n :: ObjectKey(format, path, timeSlice, i)
  }

  lemma {:induction false} KeysBelowSize(format: string, path: string, timeSlice: string, n: nat)
    requires KeysDistinct(format, path, timeSlice)
    ensures |KeysBelow(format, path, timeSlice, n)| == n
    decreases n
  {
    if n > 0 {
      KeysBelowSize(format, path, timeSlice, n - 1);
      var key := ObjectKey(format, path, timeSlice, n - 1);
      assert KeysBelow(format, path, timeSlice, n)
          == KeysBelow(format, path, timeSlice, n - 1) + {key};
      assert key !in KeysBelow(format, path, timeSlice, n - 1);
    }
  }

  lemma {:induction false} SubsetSize(a: set<string>, b: set<string>)
    requires a <= b
    ensures |a| <= |b|
    decreases |b|
  {
    if b != {} {
      var x :| x in b;
      SubsetSize(a - {x}, b - {x});
    }
  }

  /** When the keys are distinct, a finite set of existing objects always leaves
      a free index, and the probe loop of `write` terminates. */
  lemma FreeIndexExists(format: string, path: string, timeSlice: string, existing: set<string>)
    requires KeysDistinct(format, path, timeSlice)
    ensures exists i: nat :: ObjectKey(format, path, timeSlice, i) !in existing
  {
    var n := |existing| + 1;
    KeysBelowSize(format, path, timeSlice, n);
    if forall i: nat :: ObjectKey(format, path, timeSlice, i) in existing {
      assert KeysBelow(format, path, timeSlice, n) <= existing;
      SubsetSize(KeysBelow(format, path, timeSlice, n), existing);
      assert false;
    }
  }
}
