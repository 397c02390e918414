/** Query strings: each endpoint appends `key=value` for every truthy optional argument, in a fixed order, and
    joins the pieces with `&`. Values are inserted as they are, without percent-encoding. */
module Query {
  import opened Wrappers
  import opened Errors
  import opened PyValues

  /** How an argument's value becomes text after `key=`:
      `Verbatim` is `"key=" + v`, `Decimal` is `"key=" + str(v)`, `CommaList` is `"key=" + ",".join(v)`. */
  datatype Enc = Verbatim | Decimal | CommaList

  /** One optional argument of an endpoint, in the position the endpoint appends it. */
  datatype Param = Param(key: string, value: Value, enc: Enc)

  /** `key=text`. */
  function Piece(key: string, text: string): (s: string)
  {
    key + "=" + text
  }

  /** The query piece for one argument, or the TypeError Python raises while building it. */
  function Encode(p: Param): (r: Result<string, Exc>)
    ensures r.Success? ==> |r.value| > |p.key| && r.value[..|p.key| + 1] == p.key + "="
    ensures r.Failure? ==> r.error.cls == TypeError
    ensures p.enc == Verbatim ==> (r.Success? <==> p.value.Str?)
    ensures p.enc == Decimal ==> r.Success?
  {
    match p.enc
    case Verbatim => if p.value.Str? then Success(Piece(p.key, p.value.s)) else Concat(p.key + "=", p.value)
    case Decimal => Success(Piece(p.key, ToStr(p.value)))
    case CommaList =>
      match JoinValue(",", p.value)
      case Failure(e) => Failure(e)
      case Success(j) => Success(Piece(p.key, j))
  }

  /** Puts `pre` in front of a successful list. */
  function Prepend(pre: seq<string>, r: Result<seq<string>, Exc>): (res: Result<seq<string>, Exc>)
  {
    match r
    case Success(rest) => Success(pre + rest)
    case Failure(e) => Failure(e)
  }

  /** The list the endpoint's `params.append` calls build: one piece per truthy argument, in order,
      or the first TypeError met on the way. */
  function Params(ps: seq<Param>): (r: Result<seq<string>, Exc>)
  {
    if ps == [] then Success([])
    else if !Truthy(ps[0].value) then Params(ps[1..])
    else
      match Encode(ps[0])
      case Failure(e) => Failure(e)
      case Success(s) => Prepend([s], Params(ps[1..]))
  }

  /** Processing the arguments from position k on: the k-th is skipped, fails, or contributes its piece. */
  lemma ParamsAt(ps: seq<Param>, k: nat)
    requires k < |ps|
    ensures Params(ps[k..]) ==
      if !Truthy(ps[k].value) then Params(ps[k + 1..])
      else match Encode(ps[k])
           case Failure(e) => Failure(e)
           case Success(s) => Prepend([s], Params(ps[k + 1..]))
  {
    assert ps[k..][1..] == ps[k + 1..];
  }

  /** After the appends for the first k arguments, `pre` is the list built so far and `target` is what the
      whole sequence of appends yields. */
  ghost predicate Built(ps: seq<Param>, k: nat, pre: seq<string>, target: Result<seq<string>, Exc>)
  {
    k <= |ps| && target == Prepend(pre, ParamsFrom(ps, k))
  }

  /** `Params(ps[k..])`, indexed from k. */
  ghost function ParamsFrom(ps: seq<Param>, k: nat): (r: Result<seq<string>, Exc>)
    requires k <= |ps|
    decreases |ps| - k
  {
    if k == |ps| then Success([])
    else
      if !Truthy(ps[k].value) then ParamsFrom(ps, k + 1)
      else match Encode(ps[k])
           case Failure(e) => Failure(e)
           case Success(s) => Prepend([s], ParamsFrom(ps, k + 1))
  }

  lemma {:induction false} ParamsFromDrop(ps: seq<Param>, k: nat)
    requires k <= |ps|
    ensures ParamsFrom(ps, k) == Params(ps[k..])
    decreases |ps| - k
  {
    if k < |ps| {
      ParamsAt(ps, k);
      ParamsFromDrop(ps, k + 1);
    }
  }

  /** Before the first append the list is empty. */
  lemma BuiltStart(ps: seq<Param>)
    ensures Built(ps, 0, [], Params(ps))
  {
    ParamsFromDrop(ps, 0);
    assert ps[0..] == ps;
    match Params(ps)
    case Success(x) => assert [] + x == x;
    case Failure(_) =>
  }

  /** One step, in general: the k-th argument is skipped, raises, or adds its piece at the end. */
  lemma BuiltStep(ps: seq<Param>, k: nat, pre: seq<string>, target: Result<seq<string>, Exc>)
    requires Built(ps, k, pre, target) && k < |ps|
    ensures !Truthy(ps[k].value) ==> Built(ps, k + 1, pre, target)
    ensures Truthy(ps[k].value) && Encode(ps[k]).Failure? ==> target == Failure(Encode(ps[k]).error)
    ensures Truthy(ps[k].value) && Encode(ps[k]).Success? ==> Built(ps, k + 1, pre + [Encode(ps[k]).value], target)
  {
    match ParamsFrom(ps, k + 1)
    case Success(x) =>
      if Truthy(ps[k].value) && Encode(ps[k]).Success? {
        assert pre + ([Encode(ps[k]).value] + x) == (pre + [Encode(ps[k]).value]) + x;
      }
    case Failure(_) =>
  }

  /** `if v: params.append("key=" + str(v))`. */
  lemma DecimalStep(ps: seq<Param>, k: nat, pre: seq<string>, target: Result<seq<string>, Exc>)
    requires Built(ps, k, pre, target) && k < |ps| && ps[k].enc == Decimal
    ensures Built(ps, k + 1, if Truthy(ps[k].value) then pre + [Piece(ps[k].key, ToStr(ps[k].value))] else pre,
                  target)
  {
    BuiltStep(ps, k, pre, target);
  }

  /** `if v: params.append("key=" + v)`: raises the concatenation TypeError when the truthy v is not a str. */
  lemma VerbatimStep(ps: seq<Param>, k: nat, pre: seq<string>, target: Result<seq<string>, Exc>)
    requires Built(ps, k, pre, target) && k < |ps| && ps[k].enc == Verbatim
    ensures Truthy(ps[k].value) && !ps[k].value.Str? ==>
              target == Failure(Concat(ps[k].key + "=", ps[k].value).error)
    ensures Truthy(ps[k].value) && ps[k].value.Str? ==>
              Built(ps, k + 1, pre + [Piece(ps[k].key, ps[k].value.s)], target)
    ensures !Truthy(ps[k].value) ==> Built(ps, k + 1, pre, target)
  {
    BuiltStep(ps, k, pre, target);
  }

  /** `if v: params.append("key=" + ",".join(v))`. */
  lemma ListStep(ps: seq<Param>, k: nat, pre: seq<string>, target: Result<seq<string>, Exc>)
    requires Built(ps, k, pre, target) && k < |ps| && ps[k].enc == CommaList
    ensures Truthy(ps[k].value) && JoinValue(",", ps[k].value).Failure? ==>
              target == Failure(JoinValue(",", ps[k].value).error)
    ensures Truthy(ps[k].value) && JoinValue(",", ps[k].value).Success? ==>
              Built(ps, k + 1, pre + [Piece(ps[k].key, JoinValue(",", ps[k].value).value)], target)
    ensures !Truthy(ps[k].value) ==> Built(ps, k + 1, pre, target)
  {
    BuiltStep(ps, k, pre, target);
  }

  /** After the last append the list built is the result. */
  lemma BuiltDone(ps: seq<Param>, pre: seq<string>, target: Result<seq<string>, Exc>)
    requires Built(ps, |ps|, pre, target)
    ensures target == Success(pre)
  {
    assert pre + [] == pre;
  }

  /** Number of truthy arguments in `ps`. */
  function Count(ps: seq<Param>): (n: nat)
  {
    if ps == [] then 0 else Count(ps[..|ps| - 1]) + (if Truthy(ps[|ps| - 1].value) then 1 else 0)
  }

  /** Where the piece of argument i lands: after the pieces of the truthy arguments before it. */
  function Position(ps: seq<Param>, i: nat): (n: nat)
    requires i <= |ps|
  {
    Count(ps[..i])
  }

  lemma {:induction false} CountFront(ps: seq<Param>)
    requires ps != []
    ensures Count(ps) == (if Truthy(ps[0].value) then 1 else 0) + Count(ps[1..])
    decreases |ps|
  {
    if |ps| > 1 {
      var n := |ps| - 1;
      assert ps[..n][1..] == ps[1..][..n - 1];
      CountFront(ps[..n]);
    } else {
      assert ps[1..] == [];
    }
  }

  /** Positions grow by one exactly at each truthy argument. */
  lemma PositionStep(ps: seq<Param>, i: nat)
    requires i < |ps|
    ensures Position(ps, i + 1) == Position(ps, i) + (if Truthy(ps[i].value) then 1 else 0)
  {
    assert ps[..i + 1][..i] == ps[..i];
  }

  lemma {:induction false} PositionMonotone(ps: seq<Param>, i: nat, j: nat)
    requires i <= j <= |ps|
    ensures Position(ps, i) <= Position(ps, j)
    decreases j - i
  {
    if i < j {
      PositionStep(ps, i);
      PositionMonotone(ps, i + 1, j);
    }
  }

  /** Two truthy arguments keep their relative order in the query. */
  lemma PositionOrder(ps: seq<Param>, i: nat, j: nat)
    requires i < j < |ps| && Truthy(ps[i].value)
    ensures Position(ps, i) < Position(ps, j)
  {
    PositionStep(ps, i);
    PositionMonotone(ps, i + 1, j);
  }

  /** Shifting the window by one: positions in `ps[1..]` are positions in `ps` less the first argument's piece. */
  lemma PositionShift(ps: seq<Param>, i: nat)
    requires 0 < i <= |ps|
    ensures Position(ps, i) == (if Truthy(ps[0].value) then 1 else 0) + Position(ps[1..], i - 1)
  {
    assert ps[..i][1..] == ps[1..][..i - 1];
    CountFront(ps[..i]);
  }

  /** Peeling the first argument off a successful build. */
  lemma ParamsHead(ps: seq<Param>, out: seq<string>)
    requires ps != [] && Params(ps) == Success(out)
    ensures Truthy(ps[0].value) ==> |out| > 0 && Encode(ps[0]) == Success(out[0]) && Params(ps[1..]) == Success(out[1..])
    ensures !Truthy(ps[0].value) ==> Params(ps[1..]) == Success(out)
  {
  }

  /** The built list has one piece per truthy argument, and each truthy argument's piece sits at its position. */
  lemma {:induction false} ParamsForward(ps: seq<Param>, out: seq<string>)
    requires Params(ps) == Success(out)
    ensures |out| == Count(ps)
    ensures forall i :: 0 <= i < |ps| && Truthy(ps[i].value) ==>
              Position(ps, i) < |out| && Encode(ps[i]) == Success(out[Position(ps, i)])
    decreases |ps|
  {
    if ps != [] {
      CountFront(ps);
      ParamsHead(ps, out);
      var rest := if Truthy(ps[0].value) then out[1..] else out;
      ParamsForward(ps[1..], rest);
      forall i | 0 <= i < |ps| && Truthy(ps[i].value)
        ensures Position(ps, i) < |out| && Encode(ps[i]) == Success(out[Position(ps, i)])
      {
        if i > 0 {
          PositionShift(ps, i);
          assert ps[1..][i - 1] == ps[i];
        } else {
          assert ps[..0] == [];
        }
      }
    }
  }

  /** `piece` is the encoding of some truthy argument whose position is j. */
  ghost predicate PieceFrom(ps: seq<Param>, j: nat, piece: string)
  {
    exists i :: 0 <= i < |ps| && Truthy(ps[i].value) && Position(ps, i) == j && Encode(ps[i]) == Success(piece)
  }

  /** Every piece of the built list comes from a truthy argument at that position. */
  lemma {:induction false} ParamsBackward(ps: seq<Param>, out: seq<string>, j: nat)
    requires Params(ps) == Success(out) && j < |out|
    ensures PieceFrom(ps, j, out[j])
    decreases |ps|
  {
    assert ps != [];
    ParamsHead(ps, out);
    if Truthy(ps[0].value) && j == 0 {
      assert ps[..0] == [];
      assert Truthy(ps[0].value) && Position(ps, 0) == j && Encode(ps[0]) == Success(out[j]);
    } else {
      var t := if Truthy(ps[0].value) then 1 else 0;
      var rest := if t == 1 then out[1..] else out;
      assert rest[j - t] == out[j];
      ParamsBackward(ps[1..], rest, j - t);
      var i' :| 0 <= i' < |ps[1..]| && Truthy(ps[1..][i'].value) && Position(ps[1..], i') == j - t
                && Encode(ps[1..][i']) == Success(rest[j - t]);
      PositionShift(ps, i' + 1);
      assert ps[i' + 1] == ps[1..][i'];
      assert Truthy(ps[i' + 1].value) && Position(ps, i' + 1) == j && Encode(ps[i' + 1]) == Success(out[j]);
    }
  }

  /** Python raises while appending exactly when some truthy argument cannot be encoded. */
  lemma {:induction false} ParamsFailure(ps: seq<Param>)
    ensures Params(ps).Failure? <==> exists i :: 0 <= i < |ps| && Truthy(ps[i].value) && Encode(ps[i]).Failure?
    ensures Params(ps).Failure? ==> Params(ps).error.cls == TypeError
    decreases |ps|
  {
    if ps != [] {
      ParamsFailure(ps[1..]);
      assert forall i :: 1 <= i < |ps| ==> ps[i] == ps[1..][i - 1];
    }
  }

  /** No piece is built exactly when every argument is falsy. */
  lemma ParamsEmpty(ps: seq<Param>, out: seq<string>)
    requires Params(ps) == Success(out)
    ensures out == [] <==> forall i :: 0 <= i < |ps| ==> !Truthy(ps[i].value)
  {
    ParamsForward(ps, out);
    if out != [] {
      ParamsBackward(ps, out, 0);
    }
  }

  /** Two arguments that build alike: same key and encoding, and the same value or two falsy values. */
  predicate ParamAlike(p: Param, q: Param)
  {
    p.key == q.key && p.enc == q.enc && (p.value == q.value || (!Truthy(p.value) && !Truthy(q.value)))
  }

  /** A falsy argument contributes nothing, whichever falsy value it is. */
  lemma {:induction false} ParamsAlike(ps: seq<Param>, qs: seq<Param>)
    requires |ps| == |qs| && forall k :: 0 <= k < |ps| ==> ParamAlike(ps[k], qs[k])
    ensures Params(ps) == Params(qs)
    decreases |ps|
  {
    if ps != [] {
      assert ParamAlike(ps[0], qs[0]);
      ParamsAlike(ps[1..], qs[1..]);
    }
  }

  // ----- keys of query pieces -----

  /** The key of a piece: the text before its first `=`. */
  function KeyOf(piece: string): (s: string)
  {
    if piece == [] || piece[0] == '=' then "" else [piece[0]] + KeyOf(piece[1..])
  }

  lemma {:induction false} KeyOfPiece(key: string, piece: string)
    requires '=' !in key
    requires |piece| > |key| && piece[..|key| + 1] == key + "="
    ensures KeyOf(piece) == key
    decreases |key|
  {
    if key != [] {
      assert piece[0] == key[0];
      assert piece[1..][..|key| - 1 + 1] == key[1..] + "=";
      KeyOfPiece(key[1..], piece[1..]);
    } else {
      assert piece[0] == '=';
    }
  }

  /** Keys of an endpoint's arguments: distinct and free of `=`. */
  predicate GoodKeys(ps: seq<Param>)
  {
    && (forall i :: 0 <= i < |ps| ==> '=' !in ps[i].key)
    && (forall i, j :: 0 <= i < j < |ps| ==> ps[i].key != ps[j].key)
  }

  /** Keys that differ in length or first letter are distinct. */
  lemma GoodKeysBySignature(ps: seq<Param>)
    requires forall i :: 0 <= i < |ps| ==> |ps[i].key| > 0 && '=' !in ps[i].key
    requires forall i, j :: 0 <= i < j < |ps| ==> |ps[i].key| != |ps[j].key| || ps[i].key[0] != ps[j].key[0]
    ensures GoodKeys(ps)
  {
  }

  /** The key of the piece at position j names the argument it came from. */
  lemma KeyAt(ps: seq<Param>, out: seq<string>, i: nat, j: nat)
    requires Params(ps) == Success(out) && GoodKeys(ps)
    requires i < |ps| && j < |out| && KeyOf(out[j]) == ps[i].key
    ensures Truthy(ps[i].value) && j == Position(ps, i)
  {
    ParamsBackward(ps, out, j);
    var i' :| 0 <= i' < |ps| && Truthy(ps[i'].value) && Position(ps, i') == j && Encode(ps[i']) == Success(out[j]);
    KeyOfPiece(ps[i'].key, out[j]);
  }

  /** A key appears in the built piece list iff its argument is truthy. The `&`-joined string reads back as
      these pieces only when no value holds an `&` (see `SplitJoin`). */
  lemma ParamsKeyPresent(ps: seq<Param>, out: seq<string>)
    requires Params(ps) == Success(out)
    requires GoodKeys(ps)
    ensures forall i :: 0 <= i < |ps| ==>
              (Truthy(ps[i].value) <==> exists j :: 0 <= j < |out| && KeyOf(out[j]) == ps[i].key)
  {
    ParamsForward(ps, out);
    forall i | 0 <= i < |ps|
      ensures Truthy(ps[i].value) <==> exists j :: 0 <= j < |out| && KeyOf(out[j]) == ps[i].key
    {
      if Truthy(ps[i].value) {
        KeyOfPiece(ps[i].key, out[Position(ps, i)]);
      } else {
        forall j | 0 <= j < |out| ensures KeyOf(out[j]) != ps[i].key {
          if KeyOf(out[j]) == ps[i].key {
            KeyAt(ps, out, i, j);
          }
        }
      }
    }
  }

  /** In the built piece list, a key appears only at its argument's position. */
  lemma ParamsKeyPlace(ps: seq<Param>, out: seq<string>)
    requires Params(ps) == Success(out)
    requires GoodKeys(ps)
    ensures forall i, j :: 0 <= i < |ps| && 0 <= j < |out| && KeyOf(out[j]) == ps[i].key ==> j == Position(ps, i)
  {
    forall i, j | 0 <= i < |ps| && 0 <= j < |out| && KeyOf(out[j]) == ps[i].key
      ensures j == Position(ps, i)
    {
      KeyAt(ps, out, i, j);
    }
  }

  /** Truthy arguments appear in the endpoint's order. */
  lemma ParamsOrder(ps: seq<Param>)
    ensures forall i, i' :: 0 <= i < i' < |ps| && Truthy(ps[i].value) && Truthy(ps[i'].value) ==>
              Position(ps, i) < Position(ps, i')
  {
    forall i, i' | 0 <= i < i' < |ps| && Truthy(ps[i].value) && Truthy(ps[i'].value)
      ensures Position(ps, i) < Position(ps, i')
    {
      PositionOrder(ps, i, i');
    }
  }

  // ----- the `&`-joined query string and reading it back -----

  /** Splits a query string at every `&`. */
  function SplitAmp(s: string): (r: seq<string>)
    ensures |r| > 0
  {
    if s == [] then [""]
    else
      var rest := SplitAmp(s[1..]);
      if s[0] == '&' then [""] + rest else [[s[0]] + rest[0]] + rest[1..]
  }

  lemma {:induction false} SplitAmpPlain(x: string)
    requires '&' !in x
    ensures SplitAmp(x) == [x]
    decreases |x|
  {
    if x != [] {
      SplitAmpPlain(x[1..]);
      assert [x[0]] + x[1..] == x;
    }
  }

  lemma {:induction false} SplitAmpAppend(x: string, y: string)
    ensures SplitAmp(x + "&" + y) == SplitAmp(x) + SplitAmp(y)
    decreases |x|
  {
    if x == [] {
      assert x + "&" + y == "&" + y;
      assert ("&" + y)[1..] == y;
    } else {
      assert (x + "&" + y)[1..] == x[1..] + "&" + y;
      assert (x + "&" + y)[0] == x[0];
      SplitAmpAppend(x[1..], y);
    }
  }

  /** A server splitting the query at `&` recovers the pieces, provided no value contains `&`;
      the pieces are not escaped, so this proviso is the whole guarantee. */
  lemma {:induction false} SplitJoin(parts: seq<string>)
    requires |parts| > 0
    requires forall k :: 0 <= k < |parts| ==> '&' !in parts[k]
    ensures SplitAmp(JoinWith("&", parts)) == parts
    decreases |parts|
  {
    if |parts| == 1 {
      SplitAmpPlain(parts[0]);
    } else {
      var n := |parts| - 1;
      SplitJoin(parts[..n]);
      SplitAmpAppend(JoinWith("&", parts[..n]), parts[n]);
      SplitAmpPlain(parts[n]);
      assert parts[..n] + [parts[n]] == parts;
    }
  }

  /** Without escaping, a value holding `&` is read back as two pieces: `start_date=a&b` becomes
      `start_date=a` and `b`. */
  lemma UnescapedAmpersandSplits(key: string, x: string, y: string)
    requires '&' !in key && '&' !in x && '&' !in y
    ensures SplitAmp(JoinWith("&", [Piece(key, x + "&" + y)])) == [Piece(key, x), y]
  {
    assert Piece(key, x + "&" + y) == Piece(key, x) + "&" + y;
    SplitAmpAppend(Piece(key, x), y);
    assert '&' !in Piece(key, x);
    SplitAmpPlain(Piece(key, x));
    SplitAmpPlain(y);
  }
}
