/**
 * The input-name heuristic of src/lib/inferenceWorker.ts:155-167: which of the
 * session's input names receives the image tensor and which the mask tensor.
 */
module FeedMapping {
  import opened Wrappers

  /** `toLowerCase` on one character, for the ASCII letters. */
  function LowerChar(ch: char): (l: char)
    ensures 'A' <= ch <= 'Z' ==> l as int == ch as int + 32
    ensures !('A' <= ch <= 'Z') ==> l == ch
  {
    if 'A' <= ch <= 'Z' then (ch as int + 32) as char else ch
  }

  /** `toLowerCase`: the string with every upper-case ASCII letter replaced by its lower-case letter. */
  function Lower(s: string): (l: string)
    ensures |l| == |s| && forall i :: 0 <= i < |s| ==> l[i] == LowerChar(s[i])
  {
    seq(|s|, i requires 0 <= i < |s| => LowerChar(s[i]))
  }

  /** `sub` occurs in `s` at offset `i`. */
  predicate OccursAt(s: string, sub: string, i: int) {
    0 <= i <= |s| - |sub| && s[i..i + |sub|] == sub
  }

  /** `s.includes(sub)`: `sub` occurs in `s` at some offset. */
  predicate Includes(s: string, sub: string) {
    exists i :: 0 <= i <= |s| && OccursAt(s, sub, i)
  }

  /** An occurrence at offset `i` makes `sub` included in `s`. */
  lemma IncludesAt(s: string, sub: string, i: nat)
    requires i + |sub| <= |s| && s[i..i + |sub|] == sub
    ensures Includes(s, sub)
  {
    assert OccursAt(s, sub, i);
  }

  /** A string without upper-case ASCII letters is its own lower case. */
  lemma LowerOfLowerCase(s: string)
    requires forall i :: 0 <= i < |s| ==> !('A' <= s[i] <= 'Z')
    ensures Lower(s) == s
  {
  }

  /** The image-input test of inferenceWorker.ts:159. */
  predicate IsImageName(name: string) {
    Includes(Lower(name), "image") || name == "x"
  }

  /** The mask-input test of inferenceWorker.ts:160. */
  predicate IsMaskName(name: string) {
    Includes(Lower(name), "mask")
  }

  /** `names.find(p)`: the first name satisfying `p`, or `None` (`undefined`). */
  function Find(names: seq<string>, p: string -> bool): (r: Option<string>)
    ensures r.None? <==> forall i :: 0 <= i < |names| ==> !p(names[i])
    ensures r.Some? ==> exists i :: 0 <= i < |names| && names[i] == r.value && p(names[i])
                                      && forall j :: 0 <= j < i ==> !p(names[j])
  {
    if |names| == 0 then None
    else if p(names[0]) then Some(names[0])
    else
      var r := Find(names[1..], p);
      assert forall i :: 1 <= i < |names| ==> names[1..][i - 1] == names[i];
      if r.Some? then
        var i :| 0 <= i < |names[1..]| && names[1..][i] == r.value && p(names[1..][i])
                  && forall j :: 0 <= j < i ==> !p(names[1..][j]);
        assert names[i + 1] == r.value && forall j :: 0 <= j < i + 1 ==> !p(names[j]);
        r
      else r
  }

  /** `names[i]`, or `None` (`undefined`) past the end. */
  function ElementAt(names: seq<string>, i: nat): Option<string> {
    if i < |names| then Some(names[i]) else None
  }

  /** JavaScript `a || b` on an optional string: `a` unless it is undefined or empty. */
  function OrElse(a: Option<string>, b: Option<string>): Option<string> {
    if a.Some? && a.value != "" then a else b
  }

  /** The name the image tensor is fed under (inferenceWorker.ts:159). */
  function ImageInputName(names: seq<string>): Option<string> {
    OrElse(Find(names, IsImageName), ElementAt(names, 0))
  }

  /** The name the mask tensor is fed under (inferenceWorker.ts:160). */
  function MaskInputName(names: seq<string>): Option<string> {
    OrElse(Find(names, IsMaskName), ElementAt(names, 1))
  }

  /** The property key an optional name becomes: an undefined name is the key "undefined". */
  function Key(name: Option<string>): string {
    if name.Some? then name.value else "undefined"
  }

  /** The feeds record of inferenceWorker.ts:155-167: the image tensor, then the mask tensor, under their names. */
  function Feeds<T>(names: seq<string>, image: T, mask: T): map<string, T> {
    map[Key(ImageInputName(names)) := image][Key(MaskInputName(names)) := mask]
  }

  /**
   * The image input is the first name that, lower-cased, contains "image" or
   * that is "x"; without one it is the first name, and undefined when there is
   * no name at all.
   */
  lemma ImageInputNameChoice(names: seq<string>)
    ensures forall i :: 0 <= i < |names| && IsImageName(names[i]) && (forall j :: 0 <= j < i ==> !IsImageName(names[j]))
              ==> ImageInputName(names) == Some(names[i])
    ensures (forall i :: 0 <= i < |names| ==> !IsImageName(names[i]))
              ==> ImageInputName(names) == ElementAt(names, 0)
  {
    var f := Find(names, IsImageName);
    if f.Some? {
      var k :| 0 <= k < |names| && names[k] == f.value && IsImageName(names[k])
                && forall j :: 0 <= j < k ==> !IsImageName(names[j]);
      forall i | 0 <= i < |names| && IsImageName(names[i]) && (forall j :: 0 <= j < i ==> !IsImageName(names[j]))
        ensures ImageInputName(names) == Some(names[i])
      {
        assert !(i < k) && !(k < i);
      }
    }
  }

  /**
   * The mask input is the first name that, lower-cased, contains "mask"; without
   * one it is the second name, and undefined when there are fewer than two.
   */
  lemma MaskInputNameChoice(names: seq<string>)
    ensures forall i :: 0 <= i < |names| && IsMaskName(names[i]) && (forall j :: 0 <= j < i ==> !IsMaskName(names[j]))
              ==> MaskInputName(names) == Some(names[i])
    ensures (forall i :: 0 <= i < |names| ==> !IsMaskName(names[i]))
              ==> MaskInputName(names) == ElementAt(names, 1)
  {
    var f := Find(names, IsMaskName);
    if f.Some? {
      var k :| 0 <= k < |names| && names[k] == f.value && IsMaskName(names[k])
                && forall j :: 0 <= j < k ==> !IsMaskName(names[j]);
      forall i | 0 <= i < |names| && IsMaskName(names[i]) && (forall j :: 0 <= j < i ==> !IsMaskName(names[j]))
        ensures MaskInputName(names) == Some(names[i])
      {
        assert !(i < k) && !(k < i);
      }
    }
  }

  /**
   * The feeds hold the mask tensor under the mask name in every case, and the
   * image tensor under the image name unless the two names coincide, in which
   * case the mask, assigned second, wins; nothing else is fed.
   */
  lemma FeedsContents<T>(names: seq<string>, image: T, mask: T)
    ensures Feeds(names, image, mask).Keys == {Key(ImageInputName(names)), Key(MaskInputName(names))}
    ensures Feeds(names, image, mask)[Key(MaskInputName(names))] == mask
    ensures (Key(ImageInputName(names)) != Key(MaskInputName(names)))
              ==> Feeds(names, image, mask)[Key(ImageInputName(names))] == image
  {
  }

  /** The LaMa export's own names feed each tensor under its name. */
  lemma LamaNames<T>(image: T, mask: T)
    ensures Feeds(["image", "mask"], image, mask) == map["image" := image, "mask" := mask]
  {
    LowerOfLowerCase("image");
    LowerOfLowerCase("mask");
    IncludesAt("image", "image", 0);
    IncludesAt("mask", "mask", 0);
    assert !IsMaskName("image") by {
      assert !OccursAt("image", "mask", 0) by { assert "image"[0] != "mask"[0]; }
      assert !OccursAt("image", "mask", 1) by { assert "image"[4] != "mask"[3]; }
    }
    assert ImageInputName(["image", "mask"]) == Some("image");
    assert MaskInputName(["image", "mask"]) == Some("mask");
  }

  /**
   * A first input named "masked_image" matches both tests, so both tensors go
   * to it, the mask overwriting the image, and the input "mask" is not fed.
   */
  lemma SharedNameFeedsOnlyMask<T>(image: T, mask: T)
    ensures Feeds(["masked_image", "mask"], image, mask) == map["masked_image" := mask]
  {
    var n := "masked_image";
    LowerOfLowerCase(n);
    IncludesAt(n, "image", 7);
    IncludesAt(n, "mask", 0);
    assert IsImageName(n) && IsMaskName(n);
    assert ImageInputName([n, "mask"]) == Some(n);
    assert MaskInputName([n, "mask"]) == Some(n);
  }
}
