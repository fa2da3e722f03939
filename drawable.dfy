/**
  The wire format of the drawables shared by server and client
  (`common/drawable.mjs`): a wall rectangle or an image sprite, encoded as a
  `{type, args}` record whose arguments are the constructor's parameters in
  order. The draw closures are not modelled.
 */
module Drawables {
  import opened Wrappers

  /** The JSON values that can stand in an `args` list. */
  datatype Json = JNum(n: real) | JStr(s: string) | JNull

  /** `getAsJSON(type, args)`: the `{type, args}` record. */
  datatype Encoded = Encoded(tag: string, args: seq<Json>)

  /**
    `DrawableWall(x, y, w, h)` and `DrawableImage(imageName, xPos, yPos, rotation)`.
    A rotation that was never given is `undefined` in the source; JSON writes it
    as `null`; both are `None` here.
   */
  datatype Drawable =
    | Wall(x: real, y: real, w: real, h: real)
    | Image(imgName: string, x: real, y: real, rot: Option<real>)

  /** Why `fromJSON` produced no drawable. */
  datatype DecodeError = UnknownType(tag: string) | MalformedArgs(tag: string)

  const WallTag: string := "DrawableWall"
  const ImageTag: string := "DrawableImage"

  function RotationToJson(rot: Option<real>): Json
  {
    match rot
    case Some(r) => JNum(r)
    case None => JNull
  }

  /** `toJSON()` of both variants. */
  function ToJson(d: Drawable): (e: Encoded)
    ensures e.tag == WallTag <==> d.Wall?
    ensures e.tag == ImageTag <==> d.Image?
    ensures |e.args| == 4
    ensures forall i | 0 <= i < 4 :: e.args[i].JNum? <==> (d.Wall? || (i == 1 || i == 2) || (i == 3 && d.rot.Some?))
  {
    match d
    case Wall(x, y, w, h) => Encoded(WallTag, [JNum(x), JNum(y), JNum(w), JNum(h)])
    case Image(name, x, y, rot) => Encoded(ImageTag, [JStr(name), JNum(x), JNum(y), RotationToJson(rot)])
  }

  /**
    `Drawable.fromJSON(jsonData)`: dispatch on the type tag and spread `args`
    into the constructor. Extra arguments are ignored, as a spread into a
    constructor with fewer parameters ignores them; a missing rotation is
    `undefined`. An unknown tag yields no drawable.
   */
  function FromJson(e: Encoded): (r: Result<Drawable, DecodeError>)
    ensures r.Err? && r.error.UnknownType? <==> e.tag != WallTag && e.tag != ImageTag
    ensures r.Ok? ==> ToJson(r.value).tag == e.tag
    ensures r.Ok? && r.value.Wall? ==> |e.args| >= 4 && ToJson(r.value).args == e.args[..4]
  {
    var a := e.args;
    if e.tag == WallTag then
      if |a| >= 4 && a[0].JNum? && a[1].JNum? && a[2].JNum? && a[3].JNum? then
        Ok(Wall(a[0].n, a[1].n, a[2].n, a[3].n))
      else
        Err(MalformedArgs(e.tag))
    else if e.tag == ImageTag then
      if |a| >= 3 && a[0].JStr? && a[1].JNum? && a[2].JNum? && (|a| == 3 || a[3].JNum? || a[3].JNull?) then
        var rot := if |a| > 3 && a[3].JNum? then Some(a[3].n) else None;
        Ok(Image(a[0].s, a[1].n, a[2].n, rot))
      else
        Err(MalformedArgs(e.tag))
    else
      Err(UnknownType(e.tag))
  }

  /** Decoding an encoded drawable gives back the same drawable, field for field. */
  lemma DecodeEncode(d: Drawable)
    ensures FromJson(ToJson(d)) == Ok(d)
  {
  }

  /**
    Encoding a decoded drawable gives back the record it came from, whenever
    that record had exactly the four arguments the encoder writes.
   */
  lemma EncodeDecode(e: Encoded)
    requires FromJson(e).Ok? && |e.args| == 4
    ensures ToJson(FromJson(e).value) == e
  {
    var d := FromJson(e).value;
    var out := ToJson(d);
    assert out.tag == e.tag;
    forall i | 0 <= i < 4 ensures out.args[i] == e.args[i] {
    }
    assert out.args == e.args;
  }

  /** Any tag other than the two known ones is refused as unknown. */
  lemma UnknownTagRefused(e: Encoded)
    requires e.tag != WallTag && e.tag != ImageTag
    ensures FromJson(e) == Err(UnknownType(e.tag))
  {
  }

  /** Encoding is injective: two drawables with the same record are equal. */
  lemma EncodingInjective(d1: Drawable, d2: Drawable)
    requires ToJson(d1) == ToJson(d2)
    ensures d1 == d2
  {
    DecodeEncode(d1);
    DecodeEncode(d2);
  }
}
