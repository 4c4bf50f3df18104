// NTImage: an image carrying a list of effects, and withEffects, which runs them over it.
module ImageEffects {
  import opened Geometry

  /** An NTImageEffect as its `apply(onImage:)`: any function from images to images. */
  type Effect = Image -> Image

  /** The effects applied one after another, from the first to the last (a left fold). */
  function ApplyEffects(img: Image, effects: seq<Effect>): Image
    decreases |effects|
  {
    if |effects| == 0 then img else ApplyEffects(effects[0](img), effects[1..])
  }

  /** An effect appended to the list runs last, on what the others produced. */
  lemma {:induction false} ApplyEffectsSnoc(img: Image, effects: seq<Effect>, e: Effect)
    ensures ApplyEffects(img, effects + [e]) == e(ApplyEffects(img, effects))
    decreases |effects|
  {
    if |effects| > 0 {
      assert (effects + [e])[1..] == effects[1..] + [e];
      ApplyEffectsSnoc(effects[0](img), effects[1..], e);
    }
  }

  /** Running two lists is running their concatenation. */
  lemma {:induction false} ApplyEffectsAppend(img: Image, a: seq<Effect>, b: seq<Effect>)
    ensures ApplyEffects(img, a + b) == ApplyEffects(ApplyEffects(img, a), b)
    decreases |a|
  {
    if |a| > 0 {
      assert (a + b)[1..] == a[1..] + b;
      ApplyEffectsAppend(a[0](img), a[1..], b);
    } else {
      assert a + b == b;
    }
  }

  /**
   * The intermediate images: the original, then the result of each effect in turn, each
   * effect applied once to the image before it.
   */
  function Stages(img: Image, effects: seq<Effect>): (r: seq<Image>)
    ensures |r| == |effects| + 1
    ensures r[0] == img
    ensures forall k :: 0 <= k < |effects| ==> r[k + 1] == effects[k](r[k])
    decreases |effects|
  {
    if |effects| == 0 then [img] else [img] + Stages(effects[0](img), effects[1..])
  }

  /** The final stage is the folded result. */
  lemma {:induction false} StagesEndInResult(img: Image, effects: seq<Effect>)
    ensures Stages(img, effects)[|effects|] == ApplyEffects(img, effects)
    decreases |effects|
  {
    if |effects| > 0 {
      StagesEndInResult(effects[0](img), effects[1..]);
    }
  }

  class NTImage {
    const image: Image
    var effects: seq<Effect>

    /** A new image starts with no effects. */
    constructor (image: Image)
      ensures this.image == image && effects == []
    {
      this.image := image;
      effects := [];
    }

    /**
     * withEffects(): applies every effect, in array order, to the previous result. It
     * changes nothing, `effects` included; with no effects it returns the image itself.
     */
    method WithEffects() returns (modifiedImage: Image)
      ensures modifiedImage == ApplyEffects(image, effects)
      ensures effects == [] ==> modifiedImage == image
    {
      modifiedImage := image;
      for i := 0 to |effects|
        invariant modifiedImage == ApplyEffects(image, effects[..i])
      {
        assert effects[..i + 1] == effects[..i] + [effects[i]];
        ApplyEffectsSnoc(image, effects[..i], effects[i]);
        modifiedImage := effects[i](modifiedImage);
      }
      assert effects[..|effects|] == effects;
    }
  }
}
