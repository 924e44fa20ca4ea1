/** Messages: typed fields that register themselves in one flat list, arrays of structures that splice the fields of
    their elements into that list while it is being traversed, and the wire format. */
module Message {
  import opened Arithmetic
  import opened Wire

  /** `sizeof(size_type)` of the array lengths on the wire. */
  const HEADER: nat := 8

  /** The type of a field: a scalar or an array of scalars of some width, or an array of structures. */
  datatype Shape = Scalar(width: nat) | Numbers(width: nat) | Structs(element: seq<Shape>)

  /** A field with its value, as a tree. */
  datatype Value = One(width: nat, x: nat) | Many(width: nat, xs: seq<nat>) | Tree(element: seq<Shape>, items: seq<Item>)

  /** One element of an array of structures. */
  datatype Item = Item(fields: seq<Value>)

  /** A field as it stands in the flat list: an array of structures holds only its length. */
  datatype Field = OneField(width: nat, x: nat) | ManyField(width: nat, xs: seq<nat>) | TreeField(element: seq<Shape>, n: nat)

  datatype Result<T> = Ok(value: T) | SizeError

  // ----- Trees -----

  ghost predicate ShapeOk(s: Shape)
    decreases s, 1
  {
    match s
    case Scalar(w) => w > 0
    case Numbers(w) => w > 0
    case Structs(element) => ShapesOk(element)
  }

  ghost predicate ShapesOk(ss: seq<Shape>)
    decreases ss, 0
  {
    forall i :: 0 <= i < |ss| ==> ShapeOk(ss[i])
  }

  /** `v` is a value of type `s` that the wire can carry. */
  ghost predicate Fits(v: Value, s: Shape)
    decreases v, 1
  {
    match v
    case One(w, x) => s == Scalar(w) && x < Pow256(w)
    case Many(w, xs) => s == Numbers(w) && |xs| < Pow256(HEADER) && forall i :: 0 <= i < |xs| ==> xs[i] < Pow256(w)
    case Tree(element, items) =>
      s == Structs(element) && |items| < Pow256(HEADER) && forall i :: 0 <= i < |items| ==> FitAll(items[i].fields, element)
  }

  ghost predicate FitAll(vs: seq<Value>, ss: seq<Shape>)
    decreases vs, 0
  {
    |vs| == |ss| && forall i :: 0 <= i < |vs| ==> Fits(vs[i], ss[i])
  }

  /** The flat list of a message: every array of structures is followed by the fields of its elements, in order. */
  function Flat(vs: seq<Value>): seq<Field>
    decreases vs, 0
  {
    if vs == [] then [] else FlatOne(vs[0]) + Flat(vs[1..])
  }

  function FlatOne(v: Value): seq<Field>
    decreases v, 2
  {
    match v
    case One(w, x) => [OneField(w, x)]
    case Many(w, xs) => [ManyField(w, xs)]
    case Tree(element, items) => [TreeField(element, |items|)] + FlatItems(items)
  }

  function FlatItems(items: seq<Item>): seq<Field>
    decreases items, 1
  {
    if items == [] then [] else Flat(items[0].fields) + FlatItems(items[1..])
  }

  /** The order of the flat list: what is in front stays in front, and an array of structures comes as its head, then its elements'
      fields, the first element's first. */
  lemma {:induction false} FlatInOrder(a: seq<Value>, b: seq<Value>)
    ensures Flat(a + b) == Flat(a) + Flat(b)
    decreases |a|
  {
    if a == [] {
      assert a + b == b;
    } else {
      assert (a + b)[1..] == a[1..] + b;
      FlatInOrder(a[1..], b);
    }
  }

  lemma {:induction false} ItemsInOrder(a: seq<Item>, b: seq<Item>)
    ensures FlatItems(a + b) == FlatItems(a) + FlatItems(b)
    decreases |a|
  {
    if a == [] {
      assert a + b == b;
    } else {
      assert (a + b)[1..] == a[1..] + b;
      ItemsInOrder(a[1..], b);
    }
  }

  lemma FlatSingle(v: Value)
    ensures
      Flat([v]) == match v
                   case One(w, x) => [OneField(w, x)]
                   case Many(w, xs) => [ManyField(w, xs)]
                   case Tree(element, items) => [TreeField(element, |items|)] + FlatItems(items)
    ensures v.Tree? && |v.items| == 1 ==> FlatItems(v.items) == Flat(v.items[0].fields)
  {
    assert [v][1..] == [];
  }

  // ----- The wire format -----

  function EncodeNumbers(xs: seq<nat>, w: nat): (b: seq<byte>)
    ensures |b| == |xs| * w
  {
    if xs == [] then [] else ToBytes(xs[0], w) + EncodeNumbers(xs[1..], w)
  }

  function EncodeField(f: Field): seq<byte> {
    match f
    case OneField(w, x) => ToBytes(x, w)
    case ManyField(w, xs) => ToBytes(|xs|, HEADER) + EncodeNumbers(xs, w)
    case TreeField(_, n) => ToBytes(n, HEADER)
  }

  /** The bytes of a flat list, one field after the other. */
  function Encode(fs: seq<Field>): seq<byte> {
    if fs == [] then [] else EncodeField(fs[0]) + Encode(fs[1..])
  }

  function DecodeNumbers(n: nat, w: nat, b: seq<byte>): (xs: seq<nat>)
    requires n * w <= |b|
    ensures |xs| == n
  {
    if n == 0 then []
    else
      Room(n, w);
      [FromBytes(b[..w])] + DecodeNumbers(n - 1, w, b[w..])
  }

  lemma Room(n: nat, w: nat)
    requires n > 0
    ensures n * w == w + (n - 1) * w >= w
  {
  }

  /** Reading one field of a given type off the front: the field and what is left. */
  function DecodeField(s: Shape, b: seq<byte>): (r: Result<(Field, seq<byte>)>)
    ensures r.Ok? ==> |r.value.1| <= |b|
    ensures r.Ok? && !s.Scalar? ==> |r.value.1| < |b|
    ensures r.Ok? && s.Scalar? && s.width > 0 ==> |r.value.1| < |b|
  {
    match s
    case Scalar(w) => if |b| < w then SizeError else Ok((OneField(w, FromBytes(b[..w])), b[w..]))
    case Numbers(w) =>
      if |b| < HEADER then SizeError
      else
        var n := FromBytes(b[..HEADER]);
        if |b| < HEADER + n * w then SizeError
        else Ok((ManyField(w, DecodeNumbers(n, w, b[HEADER..])), b[HEADER + n * w..]))
    case Structs(element) =>
      if |b| < HEADER then SizeError else Ok((TreeField(element, FromBytes(b[..HEADER])), b[HEADER..]))
  }

  function Repeat(element: seq<Shape>, n: nat): seq<Shape> {
    if n == 0 then [] else element + Repeat(element, n - 1)
  }

  /** The types of the fields a field brings with it. */
  function Spliced(f: Field): seq<Shape> {
    match f
    case OneField(_, _) => []
    case ManyField(_, _) => []
    case TreeField(element, n) => Repeat(element, n)
  }

  lemma {:induction false} RepeatOk(element: seq<Shape>, n: nat)
    requires ShapesOk(element)
    ensures ShapesOk(Repeat(element, n))
  {
    if n > 0 { RepeatOk(element, n - 1); }
  }

  /** The flat traversal: the fields still to be read, in list order. */
  ghost function DecodeFlat(todo: seq<Shape>, b: seq<byte>): (r: Result<(seq<Field>, seq<byte>)>)
    requires ShapesOk(todo)
    decreases |b|, |todo|
  {
    if todo == [] then Ok(([], b))
    else
      assert ShapeOk(todo[0]);
      match DecodeField(todo[0], b)
      case SizeError => SizeError
      case Ok((f, rest)) =>
        SplicedOk(todo[0], b);
        match DecodeFlat(Spliced(f) + todo[1..], rest)
        case SizeError => SizeError
        case Ok((fs, left)) => Ok(([f] + fs, left))
  }

  lemma SplicedOk(s: Shape, b: seq<byte>)
    requires ShapeOk(s) && DecodeField(s, b).Ok?
    ensures ShapesOk(Spliced(DecodeField(s, b).value.0)) && |DecodeField(s, b).value.1| < |b|
  {
    if s.Structs? { RepeatOk(s.element, DecodeField(s, b).value.0.n); }
  }

  // ----- Recursive decoding -----

  /** Decoding by the structure of the type: what the flat traversal is to agree with. */
  ghost function DecodeTree(ss: seq<Shape>, b: seq<byte>): (r: Result<(seq<Value>, seq<byte>)>)
    requires ShapesOk(ss)
    ensures r.Ok? ==> |r.value.1| <= |b|
    decreases |b|, ss, 0
  {
    if ss == [] then Ok(([], b))
    else
      assert ShapeOk(ss[0]);
      match DecodeValue(ss[0], b)
      case SizeError => SizeError
      case Ok((v, rest)) =>
        match DecodeTree(ss[1..], rest)
        case SizeError => SizeError
        case Ok((vs, left)) => Ok(([v] + vs, left))
  }

  ghost function DecodeValue(s: Shape, b: seq<byte>): (r: Result<(Value, seq<byte>)>)
    requires ShapeOk(s)
    ensures r.Ok? ==> |r.value.1| < |b|
    decreases |b|, s, 1
  {
    match DecodeField(s, b)
    case SizeError => SizeError
    case Ok((OneField(w, x), rest)) => Ok((One(w, x), rest))
    case Ok((ManyField(w, xs), rest)) => Ok((Many(w, xs), rest))
    case Ok((TreeField(element, n), rest)) =>
      match DecodeItems(element, n, rest)
      case SizeError => SizeError
      case Ok((items, left)) => Ok((Tree(element, items), left))
  }

  ghost function DecodeItems(element: seq<Shape>, n: nat, b: seq<byte>): (r: Result<(seq<Item>, seq<byte>)>)
    requires ShapesOk(element)
    ensures r.Ok? ==> |r.value.1| <= |b|
    decreases |b|, element, 1, n
  {
    if n == 0 then Ok(([], b))
    else
      match DecodeTree(element, b)
      case SizeError => SizeError
      case Ok((vs, rest)) =>
        match DecodeItems(element, n - 1, rest)
        case SizeError => SizeError
        case Ok((items, left)) => Ok(([Item(vs)] + items, left))
  }

  // ----- The flat traversal is the recursive decoding -----

  /** `r` behind what has been read already. */
  function Behind(done: seq<Field>, r: Result<(seq<Field>, seq<byte>)>): Result<(seq<Field>, seq<byte>)> {
    match r
    case SizeError => SizeError
    case Ok((fs, left)) => Ok((done + fs, left))
  }

  ghost function AfterTree(r: Result<(seq<Value>, seq<byte>)>, rest: seq<Shape>): Result<(seq<Field>, seq<byte>)>
    requires ShapesOk(rest)
  {
    match r
    case SizeError => SizeError
    case Ok((vs, left)) => Behind(Flat(vs), DecodeFlat(rest, left))
  }

  ghost function AfterValue(r: Result<(Value, seq<byte>)>, rest: seq<Shape>): Result<(seq<Field>, seq<byte>)>
    requires ShapesOk(rest)
  {
    match r
    case SizeError => SizeError
    case Ok((v, left)) => Behind(FlatOne(v), DecodeFlat(rest, left))
  }

  ghost function AfterItems(r: Result<(seq<Item>, seq<byte>)>, rest: seq<Shape>): Result<(seq<Field>, seq<byte>)>
    requires ShapesOk(rest)
  {
    match r
    case SizeError => SizeError
    case Ok((items, left)) => Behind(FlatItems(items), DecodeFlat(rest, left))
  }

  lemma JoinOk(a: seq<Shape>, b: seq<Shape>)
    requires ShapesOk(a) && ShapesOk(b)
    ensures ShapesOk(a + b)
  {
  }

  lemma BehindTwice(a: seq<Field>, b: seq<Field>, r: Result<(seq<Field>, seq<byte>)>)
    ensures Behind(a, Behind(b, r)) == Behind(a + b, r)
  {
    if r.Ok? { assert a + (b + r.value.0) == a + b + r.value.0; }
  }

  lemma FlatStep(todo: seq<Shape>, b: seq<byte>)
    requires ShapesOk(todo) && todo != []
    ensures DecodeField(todo[0], b).SizeError? ==> DecodeFlat(todo, b) == SizeError
    ensures DecodeField(todo[0], b).Ok? ==>
              var (f, rest) := DecodeField(todo[0], b).value;
              && ShapesOk(Spliced(f) + todo[1..]) && |rest| < |b|
              && DecodeFlat(todo, b) == Behind([f], DecodeFlat(Spliced(f) + todo[1..], rest))
  {
    if DecodeField(todo[0], b).Ok? { SplicedOk(todo[0], b); }
  }

  /** Splicing the fields of the elements right behind the array makes the flat traversal decode depth first. */
  lemma {:induction false} FlatIsTree(ss: seq<Shape>, rest: seq<Shape>, b: seq<byte>)
    requires ShapesOk(ss) && ShapesOk(rest)
    ensures ShapesOk(ss + rest) && DecodeFlat(ss + rest, b) == AfterTree(DecodeTree(ss, b), rest)
    decreases |b|, ss, 0
  {
    hide DecodeField, DecodeFlat;
    JoinOk(ss, rest);
    if ss == [] {
      assert ss + rest == rest;
      BehindNothing(DecodeFlat(rest, b));
    } else {
      var todo := ss + rest;
      assert todo[0] == ss[0] && todo[1..] == ss[1..] + rest;
      FlatStep(todo, b);
      if DecodeField(ss[0], b).Ok? {
        ValueStep(ss[0], ss[1..] + rest, b);
        var (f, r) := DecodeField(ss[0], b).value;
        SplicedOk(ss[0], b);
        if f.TreeField? { ItemsAreFlat(f.element, f.n, ss[1..] + rest, r); }
        ValueFlat(ss[0], ss[1..] + rest, b);
        if DecodeValue(ss[0], b).Ok? {
          var (v, left) := DecodeValue(ss[0], b).value;
          FlatIsTree(ss[1..], rest, left);
          TreeThen(ss, rest, b, v, left);
        }
      }
    }
  }

  lemma BehindNothing(r: Result<(seq<Field>, seq<byte>)>)
    ensures Behind([], r) == r
  {
    if r.Ok? { assert [] + r.value.0 == r.value.0; }
  }

  /** One value, by its first field and what that brings along. */
  ghost predicate ItemsFlat(element: seq<Shape>, n: nat, rest: seq<Shape>, b: seq<byte>)
    requires ShapesOk(element) && ShapesOk(rest)
  {
    ShapesOk(Repeat(element, n) + rest) && DecodeFlat(Repeat(element, n) + rest, b) == AfterItems(DecodeItems(element, n, b), rest)
  }

  lemma ValueStep(s: Shape, rest: seq<Shape>, b: seq<byte>)
    requires ShapeOk(s) && ShapesOk(rest) && DecodeField(s, b).Ok?
    ensures DecodeField(s, b).value.0.TreeField? <==> s.Structs?
    ensures s.Structs? ==> DecodeField(s, b).value.0.element == s.element && ShapesOk(s.element)
  {
  }

  lemma ValueFlat(s: Shape, rest: seq<Shape>, b: seq<byte>)
    requires ShapeOk(s) && ShapesOk(rest) && DecodeField(s, b).Ok? && (s.Structs? ==> ShapesOk(s.element))
    requires var (f, r) := DecodeField(s, b).value; f.TreeField? ==> f.element == s.element && s.Structs? && ItemsFlat(f.element, f.n, rest, r)
    requires DecodeField(s, b).value.0.TreeField? <==> s.Structs?
    ensures
      var (f, r) := DecodeField(s, b).value;
      && ShapesOk(Spliced(f) + rest)
      && Behind([f], DecodeFlat(Spliced(f) + rest, r))
         == AfterValue(DecodeValue(s, b), rest)
  {
    hide DecodeField, DecodeFlat;
    var (f, r) := DecodeField(s, b).value;
    SplicedOk(s, b);
    JoinOk(Spliced(f), rest);
    if f.TreeField? {
      if DecodeItems(f.element, f.n, r).Ok? {
        var (items, left) := DecodeItems(f.element, f.n, r).value;
        ItemsLength(f.element, f.n, r);
        BehindTwice([f], FlatItems(items), DecodeFlat(rest, left));
      }
    } else {
      assert Spliced(f) + rest == rest;
    }
  }

  lemma {:induction false} ItemsLength(element: seq<Shape>, n: nat, b: seq<byte>)
    requires ShapesOk(element) && DecodeItems(element, n, b).Ok?
    ensures |DecodeItems(element, n, b).value.0| == n
    decreases n
  {
    if n > 0 { ItemsLength(element, n - 1, DecodeTree(element, b).value.1); }
  }

  lemma TreeThen(ss: seq<Shape>, rest: seq<Shape>, b: seq<byte>, v: Value, left: seq<byte>)
    requires ShapesOk(ss) && ShapesOk(rest) && ss != [] && ShapesOk(ss[1..])
    requires ShapeOk(ss[0]) && DecodeValue(ss[0], b) == Ok((v, left))
    ensures Behind(FlatOne(v), AfterTree(DecodeTree(ss[1..], left), rest)) == AfterTree(DecodeTree(ss, b), rest)
  {
    hide DecodeField, DecodeFlat, DecodeValue;
    if DecodeTree(ss[1..], left).Ok? {
      var (vs, end) := DecodeTree(ss[1..], left).value;
      BehindTwice(FlatOne(v), Flat(vs), DecodeFlat(rest, end));
      assert ([v] + vs)[1..] == vs;
    }
  }

  lemma {:induction false} ItemsAreFlat(element: seq<Shape>, n: nat, rest: seq<Shape>, b: seq<byte>)
    requires ShapesOk(element) && ShapesOk(rest)
    ensures ItemsFlat(element, n, rest, b)
    decreases |b|, element, 1, n
  {
    hide DecodeField, DecodeFlat;
    RepeatOk(element, n);
    JoinOk(Repeat(element, n), rest);
    if n == 0 {
      assert Repeat(element, 0) + rest == rest;
      BehindNothing(DecodeFlat(rest, b));
    } else {
      RepeatOk(element, n - 1);
      JoinOk(Repeat(element, n - 1), rest);
      var more := Repeat(element, n - 1) + rest;
      assert Repeat(element, n) + rest == element + more;
      FlatIsTree(element, more, b);
      if DecodeTree(element, b).Ok? {
        var (vs, left) := DecodeTree(element, b).value;
        ItemsAreFlat(element, n - 1, rest, left);
        if DecodeItems(element, n - 1, left).Ok? {
          var (items, end) := DecodeItems(element, n - 1, left).value;
          BehindTwice(Flat(vs), FlatItems(items), DecodeFlat(rest, end));
          assert ([Item(vs)] + items)[1..] == items;
        }
      }
    }
  }

  // ----- The bytes on the wire -----

  /** How many bytes a field takes: an array has a length of eight bytes before its elements. */
  function SizeOf(f: Field): nat {
    match f
    case OneField(w, _) => w
    case ManyField(w, xs) => 8 + |xs| * w
    case TreeField(_, _) => 8
  }

  /** What is to stand at byte `k` of a field. */
  ghost function WireByte(f: Field, k: nat): int
    requires k < SizeOf(f)
  {
    match f
    case OneField(_, x) => x / Pow256(k) % 256
    case ManyField(w, xs) =>
      if k < 8 then |xs| / Pow256(k) % 256
      else
        SplitTop(k - 8, w, |xs|);
        xs[(k - 8) / w] / Pow256((k - 8) % w) % 256
    case TreeField(_, n) => n / Pow256(k) % 256
  }

  /** Where field `i` begins. */
  function StartOf(fs: seq<Field>, i: nat): nat
    requires i <= |fs|
  {
    if i == 0 then 0 else StartOf(fs, i - 1) + SizeOf(fs[i - 1])
  }

  lemma {:induction false} NumbersByte(xs: seq<nat>, w: nat, i: nat, k: nat)
    requires i < |xs| && k < w
    ensures 0 <= i * w + k < |xs| * w && EncodeNumbers(xs, w)[i * w + k] == xs[i] / Pow256(k) % 256
    decreases |xs|
  {
    hide ToBytes, Pow256;
    MulMono(i + 1, |xs|, w);
    MulAdd(i, 1, w);
    if i == 0 {
      ByteAt(xs[0], w, k);
    } else {
      NumbersByte(xs[1..], w, i - 1, k);
      MulAdd(i - 1, 1, w);
    }
  }

  lemma FieldByte(f: Field, k: nat)
    requires k < SizeOf(f)
    ensures |EncodeField(f)| == SizeOf(f) && EncodeField(f)[k] == WireByte(f, k)
  {
    hide ToBytes, EncodeNumbers, Pow256;
    match f
    case OneField(w, x) => ByteAt(x, w, k);
    case ManyField(w, xs) =>
      if k < 8 {
        ByteAt(|xs|, 8, k);
      } else {
        SplitTop(k - 8, w, |xs|);
        NumbersByte(xs, w, (k - 8) / w, (k - 8) % w);
      }
    case TreeField(_, n) => ByteAt(n, 8, k);
  }

  lemma FieldSize(f: Field)
    ensures |EncodeField(f)| == SizeOf(f)
  {
  }

  /** Every byte of an encoded message: fields in list order, each number with the low byte first, arrays behind their
      length. */
  lemma {:induction false} EncodedByte(fs: seq<Field>, i: nat, k: nat)
    requires i < |fs| && k < SizeOf(fs[i])
    ensures StartOf(fs, i) + k < |Encode(fs)| && Encode(fs)[StartOf(fs, i) + k] == WireByte(fs[i], k)
  {
    hide EncodeField, WireByte, SizeOf;
    EncodedSize(fs, i);
    EncodeTake(fs, i);
    FieldByte(fs[i], k);
    EncodePrefix(fs, i + 1);
    EncodeConcat(fs[..i + 1], fs[i + 1..]);
    assert fs == fs[..i + 1] + fs[i + 1..];
  }

  lemma {:induction false} EncodedSize(fs: seq<Field>, i: nat)
    requires i <= |fs|
    ensures |Encode(fs[..i])| == StartOf(fs, i)
  {
    hide EncodeField, SizeOf;
    if i > 0 {
      EncodedSize(fs, i - 1);
      EncodeTake(fs, i - 1);
      FieldSize(fs[i - 1]);
    }
  }

  // ----- Round trip -----

  lemma {:induction false} NumbersRoundTrip(xs: seq<nat>, w: nat, tail: seq<byte>)
    requires forall i :: 0 <= i < |xs| ==> xs[i] < Pow256(w)
    ensures DecodeNumbers(|xs|, w, EncodeNumbers(xs, w) + tail) == xs
    ensures (EncodeNumbers(xs, w) + tail)[|xs| * w..] == tail
    decreases |xs|
  {
    hide ToBytes, FromBytes, Pow256;
    if xs != [] {
      Room(|xs|, w);
      var b, more := EncodeNumbers(xs, w) + tail, EncodeNumbers(xs[1..], w) + tail;
      assert b == ToBytes(xs[0], w) + more;
      assert b[..w] == ToBytes(xs[0], w) && b[w..] == more;
      BytesRoundTrip(xs[0], w);
      NumbersRoundTrip(xs[1..], w, tail);
      assert b[|xs| * w..] == more[(|xs| - 1) * w..];
    }
  }

  lemma HeaderRoundTrip(n: nat, tail: seq<byte>)
    requires n < Pow256(HEADER)
    ensures var b := ToBytes(n, HEADER) + tail; FromBytes(b[..HEADER]) == n && b[HEADER..] == tail
  {
    BytesRoundTrip(n, HEADER);
    assert (ToBytes(n, HEADER) + tail)[..HEADER] == ToBytes(n, HEADER);
  }

  lemma FieldRoundTrip(v: Value, s: Shape, tail: seq<byte>)
    requires Fits(v, s) && !v.Tree?
    ensures |FlatOne(v)| == 1 && DecodeField(s, EncodeField(FlatOne(v)[0]) + tail) == Ok((FlatOne(v)[0], tail))
  {
    match v
    case One(w, x) =>
      BytesRoundTrip(x, w);
      assert (ToBytes(x, w) + tail)[..w] == ToBytes(x, w) && (ToBytes(x, w) + tail)[w..] == tail;
    case Many(w, xs) =>
      var body := EncodeNumbers(xs, w) + tail;
      assert EncodeField(FlatOne(v)[0]) + tail == ToBytes(|xs|, HEADER) + body;
      HeaderRoundTrip(|xs|, body);
      NumbersRoundTrip(xs, w, tail);
      var b := ToBytes(|xs|, HEADER) + body;
      assert b[HEADER + |xs| * w..] == body[|xs| * w..];
  }

  lemma {:induction false} EncodeConcat(a: seq<Field>, b: seq<Field>)
    ensures Encode(a + b) == Encode(a) + Encode(b)
    decreases |a|
  {
    if a == [] {
      assert a + b == b;
    } else {
      assert (a + b)[1..] == a[1..] + b;
      EncodeConcat(a[1..], b);
    }
  }

  lemma Assoc(a: seq<byte>, b: seq<byte>, c: seq<byte>)
    ensures a + b + c == a + (b + c)
  {
  }

  lemma EncodeFirst(vs: seq<Value>)
    requires vs != []
    ensures Encode(Flat(vs)) == Encode(FlatOne(vs[0])) + Encode(Flat(vs[1..]))
  {
    EncodeConcat(FlatOne(vs[0]), Flat(vs[1..]));
  }

  lemma EncodeFirstItem(items: seq<Item>)
    requires items != []
    ensures Encode(FlatItems(items)) == Encode(Flat(items[0].fields)) + Encode(FlatItems(items[1..]))
  {
    EncodeConcat(Flat(items[0].fields), FlatItems(items[1..]));
  }

  lemma EncodeArray(element: seq<Shape>, items: seq<Item>)
    ensures Encode(FlatOne(Tree(element, items))) == ToBytes(|items|, HEADER) + Encode(FlatItems(items))
  {
    EncodeOne(TreeField(element, |items|));
    EncodeConcat([TreeField(element, |items|)], FlatItems(items));
  }

  lemma TreeCons(ss: seq<Shape>, b: seq<byte>, v: Value, rest: seq<byte>, vs: seq<Value>, left: seq<byte>)
    requires ShapesOk(ss) && ss != [] && ShapeOk(ss[0]) && ShapesOk(ss[1..])
    requires DecodeValue(ss[0], b) == Ok((v, rest)) && DecodeTree(ss[1..], rest) == Ok((vs, left))
    ensures DecodeTree(ss, b) == Ok(([v] + vs, left))
  {
    hide DecodeValue, DecodeField;
  }

  lemma ItemsCons(element: seq<Shape>, n: nat, b: seq<byte>, vs: seq<Value>, rest: seq<byte>, items: seq<Item>, left: seq<byte>)
    requires ShapesOk(element) && n > 0
    requires DecodeTree(element, b) == Ok((vs, rest)) && DecodeItems(element, n - 1, rest) == Ok((items, left))
    ensures DecodeItems(element, n, b) == Ok(([Item(vs)] + items, left))
  {
    hide DecodeTree, DecodeField;
  }

  /** Decoding what was encoded rebuilds the tree, and leaves what follows. */
  lemma {:induction false} TreeRoundTrip(vs: seq<Value>, ss: seq<Shape>, tail: seq<byte>)
    requires FitAll(vs, ss) && ShapesOk(ss)
    ensures DecodeTree(ss, Encode(Flat(vs)) + tail) == Ok((vs, tail))
    decreases vs, 0
  {
    if vs == [] {
      assert [] + tail == tail;
    } else {
      hide DecodeField, EncodeField, Encode, Flat, FlatOne, DecodeTree, DecodeValue;
      assert Fits(vs[0], ss[0]) && ShapeOk(ss[0]);
      EncodeFirst(vs);
      Assoc(Encode(FlatOne(vs[0])), Encode(Flat(vs[1..])), tail);
      ValueRoundTrip(vs[0], ss[0], Encode(Flat(vs[1..])) + tail);
      TreeRoundTrip(vs[1..], ss[1..], tail);
      TreeCons(ss, Encode(Flat(vs)) + tail, vs[0], Encode(Flat(vs[1..])) + tail, vs[1..], tail);
      assert [vs[0]] + vs[1..] == vs;
    }
  }

  lemma EncodeOne(f: Field)
    ensures Encode([f]) == EncodeField(f)
  {
    assert [f][1..] == [];
  }

  lemma {:induction false} ValueRoundTrip(v: Value, s: Shape, tail: seq<byte>)
    requires Fits(v, s) && ShapeOk(s)
    ensures DecodeValue(s, Encode(FlatOne(v)) + tail) == Ok((v, tail))
    decreases v, 2
  {
    match v
    case One(_, _) =>
      FieldRoundTrip(v, s, tail);
      EncodeOne(FlatOne(v)[0]);
    case Many(_, _) =>
      FieldRoundTrip(v, s, tail);
      EncodeOne(FlatOne(v)[0]);
    case Tree(element, items) =>
      EncodeArray(element, items);
      Assoc(ToBytes(|items|, HEADER), Encode(FlatItems(items)), tail);
      HeaderRoundTrip(|items|, Encode(FlatItems(items)) + tail);
      ItemsRoundTrip(items, element, tail);
  }

  lemma {:induction false} ItemsRoundTrip(items: seq<Item>, element: seq<Shape>, tail: seq<byte>)
    requires ShapesOk(element) && forall i :: 0 <= i < |items| ==> FitAll(items[i].fields, element)
    ensures DecodeItems(element, |items|, Encode(FlatItems(items)) + tail) == Ok((items, tail))
    decreases items, 1
  {
    if items == [] {
      assert [] + tail == tail;
    } else {
      hide DecodeField, EncodeField, Encode, Flat, FlatItems, DecodeTree, DecodeItems, FitAll;
      var more := Encode(FlatItems(items[1..])) + tail;
      EncodeFirstItem(items);
      Assoc(Encode(Flat(items[0].fields)), Encode(FlatItems(items[1..])), tail);
      TreeRoundTrip(items[0].fields, element, more);
      ItemsRoundTrip(items[1..], element, tail);
      ItemsCons(element, |items|, Encode(FlatItems(items)) + tail, items[0].fields, more, items[1..], tail);
      assert [Item(items[0].fields)] + items[1..] == items;
    }
  }

  /** The round trip of a whole message through the flat traversals of both ends. */
  lemma MessageRoundTrip(vs: seq<Value>, ss: seq<Shape>)
    requires FitAll(vs, ss) && ShapesOk(ss)
    ensures DecodeFlat(ss, Encode(Flat(vs))) == Ok((Flat(vs), []))
  {
    hide DecodeField, DecodeFlat;
    var b := Encode(Flat(vs));
    assert b + [] == b && ss + [] == ss;
    TreeRoundTrip(vs, ss, []);
    FlatIsTree(ss, [], b);
    NothingLeft([]);
    assert Flat(vs) + [] == Flat(vs);
  }

  // ----- Any bytes -----

  lemma {:induction false} NumbersSound(n: nat, w: nat, b: seq<byte>)
    requires n * w <= |b|
    ensures EncodeNumbers(DecodeNumbers(n, w, b), w) == b[..n * w]
    ensures forall i :: 0 <= i < n ==> DecodeNumbers(n, w, b)[i] < Pow256(w)
  {
    if n > 0 {
      hide FromBytes, ToBytes, Pow256;
      Room(n, w);
      NumbersSound(n - 1, w, b[w..]);
      NumberRoundTrip(b[..w]);
      BytesBelow(b[..w]);
      assert b[..n * w] == b[..w] + b[w..][..(n - 1) * w];
      assert DecodeNumbers(n, w, b)[1..] == DecodeNumbers(n - 1, w, b[w..]);
    }
  }

  /** A header is the encoding of what it is read as. */
  lemma HeaderSound(b: seq<byte>)
    requires |b| >= HEADER
    ensures FromBytes(b[..HEADER]) < Pow256(HEADER) && ToBytes(FromBytes(b[..HEADER]), HEADER) + b[HEADER..] == b
  {
    NumberRoundTrip(b[..HEADER]);
    BytesBelow(b[..HEADER]);
  }

  lemma FieldSound(s: Shape, b: seq<byte>)
    requires DecodeField(s, b).Ok?
    ensures
      var (f, rest) := DecodeField(s, b).value;
      && TypeOf(f) == s && EncodeField(f) + rest == b
      && match f
         case OneField(w, x) => x < Pow256(w)
         case ManyField(w, xs) => |xs| < Pow256(HEADER) && forall i :: 0 <= i < |xs| ==> xs[i] < Pow256(w)
         case TreeField(_, n) => n < Pow256(HEADER)
  {
    hide FromBytes, ToBytes, Pow256, DecodeNumbers, EncodeNumbers;
    match s
    case Scalar(w) =>
      NumberRoundTrip(b[..w]);
      BytesBelow(b[..w]);
    case Numbers(w) =>
      HeaderSound(b);
      var n := FromBytes(b[..HEADER]);
      NumbersSound(n, w, b[HEADER..]);
      assert b[HEADER..] == b[HEADER..][..n * w] + b[HEADER + n * w..];
      Assoc(ToBytes(n, HEADER), b[HEADER..][..n * w], b[HEADER + n * w..]);
    case Structs(_) => HeaderSound(b);
  }

  lemma {:induction false} TreeSound(ss: seq<Shape>, b: seq<byte>)
    requires ShapesOk(ss) && DecodeTree(ss, b).Ok?
    ensures var (vs, rest) := DecodeTree(ss, b).value; FitAll(vs, ss) && Encode(Flat(vs)) + rest == b
    decreases |b|, ss, 0
  {
    if ss != [] {
      hide DecodeField, EncodeField, Encode, DecodeValue, Flat, FlatOne;
      assert ShapeOk(ss[0]);
      ValueSound(ss[0], b);
      var (v, rest) := DecodeValue(ss[0], b).value;
      TreeSound(ss[1..], rest);
      var (vs, left) := DecodeTree(ss[1..], rest).value;
      EncodeFirst([v] + vs);
      assert ([v] + vs)[1..] == vs;
      Assoc(Encode(FlatOne(v)), Encode(Flat(vs)), left);
    } else {
      assert [] + b == b;
    }
  }

  lemma {:induction false} ValueSound(s: Shape, b: seq<byte>)
    requires ShapeOk(s) && DecodeValue(s, b).Ok?
    ensures var (v, rest) := DecodeValue(s, b).value; Fits(v, s) && Encode(FlatOne(v)) + rest == b
    decreases |b|, s, 1
  {
    hide DecodeField, EncodeField, Encode, DecodeItems;
    FieldSound(s, b);
    var (f, rest) := DecodeField(s, b).value;
    EncodeOne(f);
    if f.TreeField? {
      ItemsSound(f.element, f.n, rest);
      var (items, left) := DecodeItems(f.element, f.n, rest).value;
      EncodeArray(f.element, items);
      assert EncodeField(f) == ToBytes(f.n, HEADER) by { HeadOf(f); }
      Assoc(ToBytes(f.n, HEADER), Encode(FlatItems(items)), left);
    }
  }

  lemma HeadOf(f: Field)
    requires f.TreeField?
    ensures EncodeField(f) == ToBytes(f.n, HEADER)
  {
  }

  lemma {:induction false} ItemsSound(element: seq<Shape>, n: nat, b: seq<byte>)
    requires ShapesOk(element) && DecodeItems(element, n, b).Ok?
    ensures
      var (items, rest) := DecodeItems(element, n, b).value;
      && |items| == n && (forall i :: 0 <= i < n ==> FitAll(items[i].fields, element))
      && Encode(FlatItems(items)) + rest == b
    decreases |b|, element, 1, n
  {
    if n > 0 {
      hide DecodeField, EncodeField, Encode, DecodeTree, Flat, FlatItems, FitAll;
      TreeSound(element, b);
      var (vs, rest) := DecodeTree(element, b).value;
      ItemsSound(element, n - 1, rest);
      var (items, left) := DecodeItems(element, n - 1, rest).value;
      EncodeFirstItem([Item(vs)] + items);
      assert ([Item(vs)] + items)[1..] == items;
      Assoc(Encode(Flat(vs)), Encode(FlatItems(items)), left);
    } else {
      assert [] + b == b;
    }
  }

  /** On any bytes whatever: decoding succeeds, with these fields and this left over, exactly if the bytes are an encoding of a
      message of the type with this behind it; and fails exactly if they do not begin with any. */
  lemma DecodesIff(ss: seq<Shape>, b: seq<byte>, fs: seq<Field>, rest: seq<byte>)
    requires ShapesOk(ss)
    ensures DecodeFlat(ss, b) == Ok((fs, rest)) <==> exists vs :: FitAll(vs, ss) && fs == Flat(vs) && b == Encode(Flat(vs)) + rest
    ensures DecodeFlat(ss, b).SizeError? <==> !exists vs, left :: FitAll(vs, ss) && b == Encode(Flat(vs)) + left
  {
    hide DecodeField, DecodeFlat, DecodeTree, Flat, Encode, FitAll;
    assert ss + [] == ss && ShapesOk([]);
    FlatIsTree(ss, [], b);
    if DecodeTree(ss, b).Ok? {
      var (vs, left) := DecodeTree(ss, b).value;
      TreeSound(ss, b);
      NothingLeft(left);
      assert Flat(vs) + [] == Flat(vs);
    }
    forall vs, left | FitAll(vs, ss) && b == Encode(Flat(vs)) + left ensures DecodeFlat(ss, b) == Ok((Flat(vs), left)) {
      TreeRoundTrip(vs, ss, left);
      NothingLeft(left);
      assert Flat(vs) + [] == Flat(vs);
    }
  }

  lemma NothingLeft(b: seq<byte>)
    ensures DecodeFlat([], b) == Ok(([], b))
  {
  }

  // ----- The message object -----

  /** A field as its constructor leaves it. */
  function Blank(s: Shape): Field {
    match s
    case Scalar(w) => OneField(w, 0)
    case Numbers(w) => ManyField(w, [])
    case Structs(element) => TreeField(element, 0)
  }

  function Blanks(ss: seq<Shape>): (fs: seq<Field>)
    ensures |fs| == |ss| && forall i :: 0 <= i < |fs| ==> fs[i] == Blank(ss[i])
  {
    seq(|ss|, i requires 0 <= i < |ss| => Blank(ss[i]))
  }

  function TypeOf(f: Field): Shape {
    match f
    case OneField(w, _) => Scalar(w)
    case ManyField(w, _) => Numbers(w)
    case TreeField(element, _) => Structs(element)
  }

  lemma BlanksConcat(a: seq<Shape>, b: seq<Shape>)
    ensures Blanks(a + b) == Blanks(a) + Blanks(b)
  {
  }

  lemma RepeatMore(element: seq<Shape>, n: nat)
    ensures Repeat(element, n + 1) == Repeat(element, n) + element
    decreases n
  {
    if n == 0 {
      assert element + [] == [] + element;
    } else {
      RepeatMore(element, n - 1);
      assert element + (Repeat(element, n - 1) + element) == element + Repeat(element, n - 1) + element;
    }
  }

  lemma EncodeTake(fs: seq<Field>, i: nat)
    requires i < |fs|
    ensures Encode(fs[..i + 1]) == Encode(fs[..i]) + EncodeField(fs[i])
  {
    assert fs[..i + 1] == fs[..i] + [fs[i]];
    EncodeConcat(fs[..i], [fs[i]]);
    EncodeOne(fs[i]);
  }

  /** Where `from_wire` stands: what it has read, what it still has to read, and that the two make the whole. */
  ghost predicate Reading(ss: seq<Shape>, b: seq<byte>, fields: seq<Field>, i: nat, offset: nat, todo: seq<Shape>) {
    && ShapesOk(ss) && ShapesOk(todo) && i <= |fields| && offset <= |b| && fields[i..] == Blanks(todo)
    && DecodeFlat(ss, b) == Behind(fields[..i], DecodeFlat(todo, b[offset..]))
  }

  lemma ReadStart(ss: seq<Shape>, b: seq<byte>)
    requires ShapesOk(ss)
    ensures Reading(ss, b, Blanks(ss), 0, 0, ss)
  {
    hide DecodeFlat;
    assert b[0..] == b && Blanks(ss)[..0] == [];
    BehindNothing(DecodeFlat(ss, b));
  }

  lemma ReadStop(ss: seq<Shape>, b: seq<byte>, fields: seq<Field>, i: nat, offset: nat, todo: seq<Shape>)
    requires Reading(ss, b, fields, i, offset, todo) && todo != [] && DecodeField(todo[0], b[offset..]).SizeError?
    ensures DecodeFlat(ss, b) == SizeError
  {
    FlatStep(todo, b[offset..]);
  }

  lemma BlanksTail(ss: seq<Shape>)
    requires ss != []
    ensures |Blanks(ss)| == |ss| && Blanks(ss)[1..] == Blanks(ss[1..])
  {
  }

  /** A field is read and brings its elements' fields along. */
  lemma ReadStep(ss: seq<Shape>, b: seq<byte>, fields: seq<Field>, i: nat, offset: nat, todo: seq<Shape>, f: Field, n: nat)
    requires Reading(ss, b, fields, i, offset, todo) && todo != [] && i < |fields| && offset + n <= |b|
    requires DecodeField(todo[0], b[offset..]) == Ok((f, b[offset + n..]))
    ensures ShapesOk(Spliced(f) + todo[1..])
    ensures Reading(ss, b, fields[..i] + [f] + Blanks(Spliced(f)) + fields[i + 1..], i + 1, offset + n, Spliced(f) + todo[1..])
  {
    hide DecodeFlat, DecodeField, Spliced, Blanks, ShapesOk;
    FlatStep(todo, b[offset..]);
    var next, rest := fields[..i] + [f] + Blanks(Spliced(f)) + fields[i + 1..], Spliced(f) + todo[1..];
    BlanksConcat(Spliced(f), todo[1..]);
    BlanksTail(todo);
    assert fields[i + 1..] == Blanks(todo)[1..] == Blanks(todo[1..]);
    assert next[i + 1..] == Blanks(rest) && next[..i + 1] == fields[..i] + [f];
    BehindTwice(fields[..i], [f], DecodeFlat(rest, b[offset + n..]));
  }

  lemma ReadDone(ss: seq<Shape>, b: seq<byte>, fields: seq<Field>, offset: nat, todo: seq<Shape>)
    requires Reading(ss, b, fields, |fields|, offset, todo)
    ensures DecodeFlat(ss, b) == Ok((fields, b[offset..]))
  {
    assert todo == [] by { assert |Blanks(todo)| == 0; }
    NothingLeft(b[offset..]);
    assert fields[..|fields|] == fields && fields + [] == fields;
  }

  class MessageBase {
    var fields: seq<Field>

    /** The constructor of `field_interface_base`: the field goes in behind the one registered last, or at the end. */
    method Register(f: Field, cursor: nat) returns (next: nat)
      requires cursor <= |fields|
      modifies this
      ensures next == (if cursor == |old(fields)| then cursor else cursor + 1)
      ensures fields == old(fields)[..next] + [f] + old(fields)[next..]
    {
      next := if cursor != |fields| then cursor + 1 else cursor;
      fields := fields[..next] + [f] + fields[next..];
    }

    /** A message of a type with these fields. */
    constructor (ss: seq<Shape>)
      ensures fields == Blanks(ss)
    {
      fields := [];
      new;
      var cursor: nat := 0;
      for i := 0 to |ss|
        invariant fields == Blanks(ss[..i]) && cursor == if i == 0 then 0 else i - 1
      {
        cursor := Register(Blank(ss[i]), cursor);
      }
      assert ss[..|ss|] == ss;
    }

    /** `buffer.reset(n)` of an array of structures: the elements' fields register behind the array itself. */
    method SpliceElements(at: nat, element: seq<Shape>, n: nat)
      requires at < |fields|
      modifies this
      ensures fields == old(fields)[..at + 1] + Blanks(Repeat(element, n)) + old(fields)[at + 1..]
    {
      var cursor := at;
      ghost var head, tail, done := fields[..at + 1], fields[at + 1..], [];
      assert fields == head + Blanks([]) + tail;
      for k := 0 to n
        invariant fields == head + Blanks(done) + tail && cursor == at + |done| && done == Repeat(element, k)
      {
        ghost var before := done;
        for j := 0 to |element|
          invariant done == before + element[..j]
          invariant fields == head + Blanks(done) + tail && cursor == at + |done|
        {
          cursor := Register(Blank(element[j]), cursor);
          BlanksConcat(done, [element[j]]);
          done := done + [element[j]];
          assert element[..j + 1] == element[..j] + [element[j]];
        }
        assert element[..|element|] == element;
        RepeatMore(element, k);
      }
    }

    /** `from_wire`: one pass over a list that grows behind the field being read. `false` stands for the exception. */
    method FromWire(b: seq<byte>, ghost ss: seq<Shape>) returns (ok: bool)
      requires ShapesOk(ss) && fields == Blanks(ss)
      modifies this
      ensures ok <==> DecodeFlat(ss, b).Ok?
      ensures ok ==> fields == DecodeFlat(ss, b).value.0
    {
      hide DecodeFlat, DecodeField, Reading, ShapesOk;
      var i: nat, offset: nat := 0, 0;
      ghost var todo := ss;
      ReadStart(ss, b);
      while i != |fields|
        invariant i <= |fields| && offset <= |b| && Reading(ss, b, fields, i, offset, todo)
        decreases |b| - offset
      {
        ghost var was := fields;
        ReadNext(ss, b, fields, i, offset, todo);
        var r := DecodeField(TypeOf(fields[i]), b[offset..]);
        if r.SizeError? {
          ReadStop(ss, b, fields, i, offset, todo);
          return false;
        }
        var f := r.value.0;
        var n := |b| - offset - |r.value.1|;
        ReadStep(ss, b, fields, i, offset, todo, f, n);
        fields := fields[i := f];
        if f.TreeField? {
          SpliceElements(i, f.element, f.n);
        }
        assert fields == was[..i] + [f] + Blanks(Spliced(f)) + was[i + 1..];
        todo := Spliced(f) + todo[1..];
        i, offset := i + 1, offset + n;
      }
      ReadDone(ss, b, fields, offset, todo);
      ok := true;
    }

    /** `to_wire`: the sizes are added up, then one field after the other is written at its offset. */
    method ToWire() returns (b: array<byte>)
      ensures fresh(b) && b[..] == Encode(fields)
    {
      hide Encode, EncodeField;
      EncodeNone(fields);
      var size: nat := 0;
      for i := 0 to |fields|
        invariant size == |Encode(fields[..i])|
      {
        EncodeTake(fields, i);
        size := size + |EncodeField(fields[i])|;
      }
      assert fields[..|fields|] == fields;
      b := new byte[size];
      var offset: nat := 0;
      for i := 0 to |fields|
        invariant offset == |Encode(fields[..i])| <= b.Length && b[..offset] == Encode(fields[..i])
      {
        EncodeTake(fields, i);
        EncodePrefix(fields, i + 1);
        var bytes := EncodeField(fields[i]);
        for k := 0 to |bytes|
          invariant b[..offset] == Encode(fields[..i]) && b[offset..offset + k] == bytes[..k]
        {
          b[offset + k] := bytes[k];
        }
        assert b[..offset + |bytes|] == b[..offset] + b[offset..offset + |bytes|];
        offset := offset + |bytes|;
      }
    }
  }

  lemma EncodeNone(fs: seq<Field>)
    ensures Encode(fs[..0]) == []
  {
  }

  lemma EncodePrefix(fs: seq<Field>, i: nat)
    requires i <= |fs|
    ensures |Encode(fs[..i])| <= |Encode(fs)|
  {
    EncodeConcat(fs[..i], fs[i..]);
    assert fs == fs[..i] + fs[i..];
  }

  /** The next field of the list is one that is still to be read, so its type is known; reading it takes bytes. */
  lemma ReadNext(ss: seq<Shape>, b: seq<byte>, fields: seq<Field>, i: nat, offset: nat, todo: seq<Shape>)
    requires Reading(ss, b, fields, i, offset, todo) && i < |fields|
    ensures offset <= |b| && todo != [] && TypeOf(fields[i]) == todo[0] && ShapeOk(todo[0])
    ensures
      var r := DecodeField(todo[0], b[offset..]);
      r.Ok? ==> |r.value.1| < |b| - offset && r.value.1 == b[|b| - |r.value.1|..]
  {
    hide DecodeField, DecodeFlat;
    assert |Blanks(todo)| == |fields| - i;
    assert fields[i] == fields[i..][0];
    if DecodeField(todo[0], b[offset..]).Ok? { LeftIsSuffix(todo[0], b[offset..]); }
  }

  lemma LeftIsSuffix(s: Shape, b: seq<byte>)
    requires ShapeOk(s) && DecodeField(s, b).Ok?
    ensures var left := DecodeField(s, b).value.1; |left| < |b| && left == b[|b| - |left|..]
  {
  }
}
