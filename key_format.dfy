/** Key flattening of the statsite sink: metric key segments (and label
    values) are joined with '.' and every ':' and ' ' is turned into '_',
    so that the key cannot be confused with the ':' that separates it from
    the value on the wire. */
module KeyFormat {

  /** A metric label. Only `Value` takes part in flattening; `Name` is ignored. */
  datatype Label = Label(Name: string, Value: string)

  /** The rune mapping handed to strings.Map: ':' falls through to ' ',
      and both become '_'; every other rune is kept. */
  function Sanitize(c: char): (r: char)
    ensures r != ':' && r != ' '
    ensures (c == ':' || c == ' ') <==> r == '_' && c != '_'
    ensures c != ':' && c != ' ' ==> r == c
  {
    match c
    case ':' => '_'
    case ' ' => '_'
    case _ => c
  }

  /** strings.Map(Sanitize, s): the mapping applied rune by rune. */
  function MapRunes(s: string): (r: string)
    ensures |r| == |s|
    ensures forall i :: 0 <= i < |s| ==> r[i] == Sanitize(s[i])
  {
    if s == [] then "" else [Sanitize(s[0])] + MapRunes(s[1..])
  }

  /** Total number of runes in all segments. */
  function TotalLength(parts: seq<string>): nat
  {
    if parts == [] then 0 else |parts[0]| + TotalLength(parts[1..])
  }

  /** strings.Join(parts, "."): every segment plus one '.' between each
      neighbouring pair. */
  function Join(parts: seq<string>): (r: string)
    ensures parts != [] ==> |r| == TotalLength(parts) + |parts| - 1
    ensures parts != [] ==> r[..|parts[0]|] == parts[0]
  {
    if parts == [] then ""
    else if |parts| == 1 then parts[0]
    else parts[0] + "." + Join(parts[1..])
  }

  /** flattenKey: join the segments with '.', then sanitise every rune. The
      result is as long as the joined key, holds no ' ' and no ':', and
      differs from the joined key only where that held ' ' or ':'. */
  function FlattenKey(parts: seq<string>): (r: string)
    ensures |r| == |Join(parts)|
    ensures forall i :: 0 <= i < |r| ==> r[i] != ' ' && r[i] != ':'
    ensures forall i :: 0 <= i < |r| ==>
              r[i] == (if Join(parts)[i] == ' ' || Join(parts)[i] == ':' then '_' else Join(parts)[i])
  {
    MapRunes(Join(parts))
  }

  /** The label values in label order: what flattenKeyLabels appends to the segments. */
  function LabelValues(labels: seq<Label>): (r: seq<string>)
    ensures |r| == |labels|
    ensures forall k :: 0 <= k < |labels| ==> r[k] == labels[k].Value
  {
    if labels == [] then []
    else LabelValues(labels[..|labels| - 1]) + [labels[|labels| - 1].Value]
  }

  /** flattenKeyLabels: append each label's value to the segments, in order,
      then flatten. */
  method FlattenKeyLabels(parts: seq<string>, labels: seq<Label>) returns (r: string)
    ensures r == FlattenKey(parts + LabelValues(labels))
  {
    var all := parts;
    for i := 0 to |labels|
      invariant all == parts + LabelValues(labels[..i])
    {
      assert labels[..i + 1][..i] == labels[..i];
      all := all + [labels[i].Value];
    }
    assert labels[..|labels|] == labels;
    r := FlattenKey(all);
  }

  // ---------------------------------------------------------------------
  // Properties of flattening

  /** Sanitising twice is the same as sanitising once. */
  lemma MapRunesIdempotent(s: string)
    ensures MapRunes(MapRunes(s)) == MapRunes(s)
  {
    var once := MapRunes(s);
    assert forall i :: 0 <= i < |s| ==> MapRunes(once)[i] == once[i];
  }

  /** Flattening an already flattened key, as a single segment, changes nothing. */
  lemma FlattenKeyIdempotent(parts: seq<string>)
    ensures FlattenKey([FlattenKey(parts)]) == FlattenKey(parts)
  {
    MapRunesIdempotent(Join(parts));
  }

  /** A key whose joined form holds no ' ' and no ':' is left exactly as joined. */
  lemma FlattenKeyKeepsCleanKey(parts: seq<string>)
    requires forall i :: 0 <= i < |Join(parts)| ==> Join(parts)[i] != ' ' && Join(parts)[i] != ':'
    ensures FlattenKey(parts) == Join(parts)
  {
  }

  /** Sanitising distributes over concatenation. */
  lemma {:induction false} MapRunesAppend(a: string, b: string)
    ensures MapRunes(a + b) == MapRunes(a) + MapRunes(b)
  {
    if a == [] {
      assert a + b == b;
    } else {
      assert (a + b)[0] == a[0];
      assert (a + b)[1..] == a[1..] + b;
      MapRunesAppend(a[1..], b);
    }
  }

  /** Joining two non-empty runs of segments puts one '.' between them. */
  lemma {:induction false} JoinAppend(a: seq<string>, b: seq<string>)
    requires a != [] && b != []
    ensures Join(a + b) == Join(a) + "." + Join(b)
  {
    assert (a + b)[0] == a[0];
    assert (a + b)[1..] == a[1..] + b;
    if |a| > 1 {
      JoinAppend(a[1..], b);
    }
  }

  /** Flattening two non-empty runs of segments is flattening each and joining with '.'.
      In particular a labelled key is the flattened base key, a '.', and the
      flattened label values. */
  lemma FlattenKeyAppend(a: seq<string>, b: seq<string>)
    requires a != [] && b != []
    ensures FlattenKey(a + b) == FlattenKey(a) + "." + FlattenKey(b)
  {
    var ja, jb := Join(a), Join(b);
    JoinAppend(a, b);
    MapRunesAppend(ja + ".", jb);
    MapRunesAppend(ja, ".");
    assert MapRunes(".") == ".";
    calc {
      FlattenKey(a + b);
      MapRunes(ja + "." + jb);
      MapRunes(ja) + "." + MapRunes(jb);
    }
  }

  /** Sanitise each segment on its own. */
  function SanitizeEach(parts: seq<string>): seq<string>
  {
    seq(|parts|, k requires 0 <= k < |parts| => MapRunes(parts[k]))
  }

  /** Flattening is the same as sanitising every segment and then joining:
      the '.' separators are never altered. */
  lemma {:induction false} FlattenKeyPerSegment(parts: seq<string>)
    ensures FlattenKey(parts) == Join(SanitizeEach(parts))
  {
    if |parts| > 1 {
      FlattenKeyPerSegment(parts[1..]);
      assert SanitizeEach(parts)[1..] == SanitizeEach(parts[1..]);
      MapRunesAppend(parts[0] + ".", Join(parts[1..]));
      MapRunesAppend(parts[0], ".");
    }
  }

  // ---------------------------------------------------------------------
  // Recovering the segments of a flattened key

  /** Split a key at every '.' (strings.Split(s, ".")): the inverse of Join
      for segments without '.'. */
  function Split(s: string): (r: seq<string>)
    ensures |r| >= 1
  {
    if s == [] then [""]
    else if s[0] == '.' then [""] + Split(s[1..])
    else var rest := Split(s[1..]); [[s[0]] + rest[0]] + rest[1..]
  }

  lemma {:induction false} SplitNoDot(x: string)
    requires '.' !in x
    ensures Split(x) == [x]
  {
    if x != [] {
      SplitNoDot(x[1..]);
      assert [x[0]] + x[1..] == x;
    }
  }

  lemma {:induction false} SplitAtFirstDot(x: string, y: string)
    requires '.' !in x
    ensures Split(x + "." + y) == [x] + Split(y)
  {
    if x == [] {
      assert (x + "." + y)[1..] == y;
    } else {
      assert (x + "." + y)[1..] == x[1..] + "." + y;
      SplitAtFirstDot(x[1..], y);
      assert [x[0]] + x[1..] == x;
    }
  }

  /** Split undoes Join whenever no segment contains '.'. */
  lemma {:induction false} SplitJoin(parts: seq<string>)
    requires parts != []
    requires forall k :: 0 <= k < |parts| ==> '.' !in parts[k]
    ensures Split(Join(parts)) == parts
  {
    if |parts| == 1 {
      SplitNoDot(parts[0]);
    } else {
      SplitJoin(parts[1..]);
      SplitAtFirstDot(parts[0], Join(parts[1..]));
    }
  }

  /** A flattened key still tells its segments apart: when no segment holds
      a '.', splitting the flattened key gives back every segment, sanitised,
      in its original position. */
  lemma FlattenKeySegments(parts: seq<string>)
    requires parts != []
    requires forall k :: 0 <= k < |parts| ==> '.' !in parts[k]
    ensures Split(FlattenKey(parts)) == SanitizeEach(parts)
  {
    FlattenKeyPerSegment(parts);
    forall k | 0 <= k < |parts|
      ensures '.' !in SanitizeEach(parts)[k]
    {
      var s := MapRunes(parts[k]);
      assert forall i :: 0 <= i < |s| ==> s[i] == Sanitize(parts[k][i]) && parts[k][i] != '.';
    }
    SplitJoin(SanitizeEach(parts));
  }

  /** Two sample keys: a space in a segment and a ':' in a label value both become '_'. */
  lemma FlattenKeyExamples()
    ensures FlattenKey(["a", "b c"]) == "a.b_c"
    ensures FlattenKey(["svc"] + LabelValues([Label("host", "x:y")])) == "svc.x_y"
  {
    FlattenKeyAppend(["a"], ["b c"]);
    assert ["a"] + ["b c"] == ["a", "b c"];
    assert MapRunes("a") == "a";
    assert MapRunes("b c") == "b_c";
    assert LabelValues([Label("host", "x:y")]) == ["x:y"];
    FlattenKeyAppend(["svc"], ["x:y"]);
    assert MapRunes("svc") == "svc";
    assert MapRunes("x:y") == "x_y";
  }
}
