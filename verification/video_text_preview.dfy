/**
 * The text-overlay editor `VideoTextPreview`: the dictionary `videoTexts`
 * of committed text elements keyed by id, the array `textLabels` of live
 * labels, the selected label, and the view's subview stack, changed by the
 * add/clear/select actions and by the drag, pinch and rotation gestures.
 *
 * Labels are objects (a `UILabel` is a reference): the selection aliases one
 * of them, and the gesture handlers change that label in place.
 */
module TextPreview {
  import opened Wrappers
  import opened CoreGraphics
  import opened VideoTextModel

  predicate NoDup<T(==)>(s: seq<T>) {
    forall i, j :: 0 <= i < j < |s| ==> s[i] != s[j]
  }

  /** `r` is `s` with some of its elements left out and the others kept in their order. */
  predicate Subsequence<T(==)>(r: seq<T>, s: seq<T>)
    decreases |s|
  {
    if r == [] then true
    else if s == [] then false
    else if r[0] == s[0] then Subsequence(r[1..], s[1..])
    else Subsequence(r, s[1..])
  }

  /**
   * A subsequence sits inside the sequence at increasing positions, so any
   * two of its elements come in the sequence in the same order.
   */
  lemma {:induction false} SubsequenceEmbeds<T>(r: seq<T>, s: seq<T>) returns (f: seq<int>)
    requires Subsequence(r, s)
    ensures |f| == |r|
    ensures forall k :: 0 <= k < |r| ==> 0 <= f[k] < |s| && s[f[k]] == r[k]
    ensures forall k, l :: 0 <= k < l < |r| ==> f[k] < f[l]
    decreases |s|
  {
    if r == [] {
      f := [];
    } else if r[0] == s[0] {
      var g := SubsequenceEmbeds(r[1..], s[1..]);
      f := [0] + seq(|g|, k requires 0 <= k < |g| => g[k] + 1);
      forall k | 0 < k < |r| ensures s[f[k]] == r[k] {
        assert s[1..][g[k - 1]] == r[1..][k - 1];
      }
    } else {
      var g := SubsequenceEmbeds(r, s[1..]);
      f := seq(|g|, k requires 0 <= k < |g| => g[k] + 1);
      forall k | 0 <= k < |r| ensures s[f[k]] == r[k] {
        assert s[1..][g[k]] == r[k];
      }
    }
  }

  /** Any two elements of a subsequence appear in the sequence in the same order. */
  lemma SubsequenceKeepsOrder<T>(r: seq<T>, s: seq<T>)
    requires Subsequence(r, s)
    ensures forall i, j :: 0 <= i < j < |r| ==>
      exists i', j' :: 0 <= i' < j' < |s| && s[i'] == r[i] && s[j'] == r[j]
  {
    var f := SubsequenceEmbeds(r, s);
    forall i, j | 0 <= i < j < |r|
      ensures exists i', j' :: 0 <= i' < j' < |s| && s[i'] == r[i] && s[j'] == r[j]
    {
      assert s[f[i]] == r[i] && s[f[j]] == r[j];
    }
  }

  /** `s` with every occurrence of `x` taken out, the others in their order. */
  function Without<T(==)>(s: seq<T>, x: T): (r: seq<T>)
    ensures Subsequence(r, s)
    ensures forall y :: y in r ==> y in s && y != x
    ensures forall y :: y in s && y != x ==> y in r
    ensures x !in s ==> r == s
    ensures NoDup(s) ==> NoDup(r)
    ensures NoDup(s) && x in s ==> |r| == |s| - 1
  {
    if s == [] then []
    else if s[0] == x then Without(s[1..], x)
    else
      var rest := Without(s[1..], x);
      NoDupTail(s);
      NoDupCons(s[0], rest);
      assert ([s[0]] + rest)[1..] == rest;
      [s[0]] + rest
  }

  lemma NoDupTail<T>(s: seq<T>)
    requires s != []
    ensures NoDup(s) ==> NoDup(s[1..]) && s[0] !in s[1..]
  {
    if NoDup(s) {
      forall i, j | 0 <= i < j < |s| - 1 ensures s[1..][i] != s[1..][j] {
        assert s[1..][i] == s[i + 1] && s[1..][j] == s[j + 1];
      }
    }
  }

  lemma NoDupCons<T>(x: T, s: seq<T>)
    ensures NoDup(s) && x !in s ==> NoDup([x] + s)
  {
    if NoDup(s) && x !in s {
      forall i, j | 0 <= i < j < |s| + 1 ensures ([x] + s)[i] != ([x] + s)[j] {
        if i > 0 {
          assert ([x] + s)[i] == s[i - 1];
        }
        assert ([x] + s)[j] == s[j - 1];
      }
    }
  }

  /** `bringSubviewToFront(x)`: `x` moves to the top of the stack; not a subview, nothing happens. */
  function BringToFront<T(==)>(s: seq<T>, x: T): (r: seq<T>)
    ensures forall y :: y in r ==> y in s
    ensures forall y :: y in s ==> y in r
    ensures NoDup(s) ==> NoDup(r) && |r| == |s|
    ensures x in s ==> r[|r| - 1] == x && Subsequence(r[..|r| - 1], s)
    ensures x !in s ==> r == s
  {
    if x in s then
      var r := Without(s, x) + [x];
      assert r[..|r| - 1] == Without(s, x);
      r
    else s
  }

  /** A sequence with no member is empty. */
  lemma EmptyWhenNoMember<T>(s: seq<T>)
    ensures (forall x :: x in s ==> false) ==> s == []
  {
    if s != [] {
      assert s[0] in s;
    }
  }

  /**
   * The stored font size after one pinch step of scale `scale`: on `.began`
   * it restarts from the label's point size, otherwise from the stored size.
   */
  function PinchedFontSize(state: GestureState, pointSize: real, stored: real, scale: real): real {
    if state == Began then pointSize * scale else stored * scale
  }

  /** `UIGestureRecognizer.State`. */
  datatype GestureState = Possible | Began | Changed | Ended | Cancelled | Failed

  /** A label on the preview; `identifier` is its `accessibilityIdentifier`, the id of its text. */
  class TextLabel {
    const identifier: string
    var text: string
    var textColor: Color
    /** `font.pointSize` */
    var fontSize: real
    var center: Point
    var transform: AffineTransform

    /** The label `addNewText` builds for `v`, coloured `color`. */
    constructor (v: VideoText, color: Color)
      ensures identifier == v.id && text == v.text && textColor == color && fontSize == v.fontSize
      ensures center == v.position && transform == RotationAngle(v.angle)
    {
      identifier := v.id;
      text := v.text;
      fontSize := v.fontSize;
      center := v.position;
      transform := RotationAngle(v.angle);
      textColor := color;
    }

    /** The label shows `v` in `color`: its id, text, font size, centre and rotation are those of `v`. */
    ghost predicate Shows(v: VideoText, color: Color)
      reads this
    {
      && identifier == v.id && text == v.text && textColor == color && fontSize == v.fontSize
      && center == v.position && transform == RotationAngle(v.angle)
    }
  }

  /** The pan recognizer's state and accumulated translation. */
  class PanGesture {
    var state: GestureState
    var translation: Point

    constructor (state: GestureState, translation: Point)
      ensures this.state == state && this.translation == translation
    {
      this.state := state;
      this.translation := translation;
    }
  }

  /** The pinch recognizer's state and scale since the last reset. */
  class PinchGesture {
    var state: GestureState
    var scale: real

    constructor (state: GestureState, scale: real)
      ensures this.state == state && this.scale == scale
    {
      this.state := state;
      this.scale := scale;
    }
  }

  /** The rotation recognizer's state and rotation since the last reset. */
  class RotationGesture {
    var state: GestureState
    var rotation: real

    constructor (state: GestureState, rotation: real)
      ensures this.state == state && this.rotation == rotation
    {
      this.state := state;
      this.rotation := rotation;
    }
  }

  /** The text `addNewText(nil)` creates: "Hello World" at the centre of the frame, upright, at size 18. */
  function DefaultVideoText(id: string, frame: Size): (v: VideoText)
    ensures v.id == id && v.text == "Hello World"
    ensures v.position.x * 2.0 == frame.width && v.position.y * 2.0 == frame.height
    ensures v.angle == 0.0 && v.fontSize == 18.0
  {
    NewVideoText(id, "Hello World", Point(frame.width * 0.5, frame.height * 0.5), 0.0, 18.0)
  }

  /** The three texts of `mockData`; `ids` are the UUIDs their initializers draw. */
  function MockData(ids: seq<string>): (mock: seq<VideoText>)
    requires |ids| == 3
    ensures |mock| == 3
    ensures forall i :: 0 <= i < 3 ==> mock[i].id == ids[i] && mock[i].text == "Hello World"
  {
    [ NewVideoText(ids[0], "Hello World", Point(195.1666717529297, 280.50000254313153),
                   0.8337175272646314, 89.39357687222396),
      NewVideoText(ids[1], "Hello World", Point(199.8333511352539, 274.49998728434247),
                   -0.47580464260803695, 82.1565932713097),
      NewVideoText(ids[2], "Hello World", Point(68.49998474121094, 466.1666666666667),
                   0.0, 18.0) ]
  }

  /** The ids of `texts`. */
  function Ids(texts: seq<VideoText>): set<string> {
    set i | 0 <= i < |texts| :: texts[i].id
  }

  /** The dictionary obtained from an empty one by `videoTexts[t.id] = t` for each `t` in order. */
  function Inserted(texts: seq<VideoText>): (m: map<string, VideoText>)
    ensures m.Keys == Ids(texts)
  {
    if texts == [] then map[]
    else
      var n := |texts| - 1;
      var m := Inserted(texts[..n])[texts[n].id := texts[n]];
      assert Ids(texts) == Ids(texts[..n]) + {texts[n].id} by {
        assert forall i :: 0 <= i < n ==> texts[..n][i] == texts[i];
      }
      m
  }
  /** One more text is stored under its id on top of the dictionary of the ones before it. */
  lemma InsertedSnoc(texts: seq<VideoText>, i: nat)
    requires i < |texts|
    ensures Inserted(texts[..i + 1]) == Inserted(texts[..i])[texts[i].id := texts[i]]
  {
    assert texts[..i + 1][..i] == texts[..i] && texts[..i + 1][i] == texts[i];
  }


  /** An id that no text in `texts` carries is not among `Ids(texts)`. */
  lemma NotInIds(texts: seq<VideoText>, id: string)
    requires forall i :: 0 <= i < |texts| ==> texts[i].id != id
    ensures id !in Ids(texts)
  {
  }

  /** No two texts of `texts` share an id. */
  predicate DistinctIds(texts: seq<VideoText>) {
    forall i, j :: 0 <= i < j < |texts| ==> texts[i].id != texts[j].id
  }

  /** With distinct ids no text is lost. */
  lemma {:induction false} InsertedCount(texts: seq<VideoText>)
    requires DistinctIds(texts)
    ensures |Inserted(texts)| == |texts|
  {
    if texts != [] {
      var n := |texts| - 1;
      var front, last := texts[..n], texts[n];
      forall i, j | 0 <= i < j < n
        ensures front[i].id != front[j].id
      {
        assert front[i] == texts[i] && front[j] == texts[j];
      }
      InsertedCount(front);
      forall i | 0 <= i < n
        ensures front[i].id != last.id
      {
        assert front[i] == texts[i];
      }
      NotInIds(front, last.id);
      var m := Inserted(front);
      assert last.id !in m;
      assert Inserted(texts) == m[last.id := last];
    }
  }

  /** Storing `last` under a fresh id keeps what `front` had stored and stores `last`. */
  lemma StoreFresh(m: map<string, VideoText>, front: seq<VideoText>, last: VideoText)
    requires forall i :: 0 <= i < |front| ==> front[i].id in m && m[front[i].id] == front[i]
    requires forall i :: 0 <= i < |front| ==> front[i].id != last.id
    ensures forall i :: 0 <= i < |front| + 1 ==>
      (front + [last])[i].id in m[last.id := last] && m[last.id := last][(front + [last])[i].id] == (front + [last])[i]
  {
    forall i | 0 <= i < |front| + 1
      ensures (front + [last])[i].id in m[last.id := last] && m[last.id := last][(front + [last])[i].id] == (front + [last])[i]
    {
      if i < |front| {
        assert (front + [last])[i] == front[i];
      }
    }
  }

  /** With distinct ids every text is stored under its own id. */
  lemma {:induction false} InsertedDistinct(texts: seq<VideoText>)
    requires DistinctIds(texts)
    ensures forall i :: 0 <= i < |texts| ==> texts[i].id in Inserted(texts) && Inserted(texts)[texts[i].id] == texts[i]
  {
    if texts != [] {
      var n := |texts| - 1;
      var front, last := texts[..n], texts[n];
      assert texts == front + [last];
      forall i, j | 0 <= i < j < n
        ensures front[i].id != front[j].id
      {
        assert front[i] == texts[i] && front[j] == texts[j];
      }
      InsertedDistinct(front);
      forall i | 0 <= i < n
        ensures front[i].id != last.id
      {
        assert front[i] == texts[i];
      }
      StoreFresh(Inserted(front), front, last);
    }
  }

  /** With three distinct UUIDs the mock data fills three entries, each under its own id. */
  lemma MockDataStored(ids: seq<string>)
    requires |ids| == 3
    ensures NoDup(ids) ==> |Inserted(MockData(ids))| == 3
    ensures NoDup(ids) ==> forall i :: 0 <= i < 3 ==>
      ids[i] in Inserted(MockData(ids)) && Inserted(MockData(ids))[ids[i]] == MockData(ids)[i]
  {
    if NoDup(ids) {
      var mock := MockData(ids);
      assert DistinctIds(mock);
      InsertedCount(mock);
      InsertedDistinct(mock);
    }
  }

  class VideoTextPreview {
    /** `frame.size`, set by the layout of the enclosing node. */
    var frame: Size
    var videoTexts: map<string, VideoText>
    var textLabels: seq<TextLabel>
    /** The view's `subviews`, back to front. */
    var subviews: seq<TextLabel>
    var selectedTextLabel: TextLabel?

    /**
     * Every label is a subview exactly once and vice versa, and every label's
     * id has an entry in `videoTexts`. The selection may refer to a label
     * that `clearAllText` has already removed.
     */
    ghost predicate Valid()
      reads this
    {
      && NoDup(textLabels)
      && NoDup(subviews)
      && (forall l :: l in subviews ==> l in textLabels)
      && (forall l :: l in textLabels ==> l in subviews)
      && (forall l :: l in textLabels ==> l.identifier in videoTexts)
    }

    /** `init()`: an empty preview with a zero frame and no selection. */
    constructor ()
      ensures Valid()
      ensures frame == SizeZero && videoTexts == map[] && textLabels == [] && subviews == []
      ensures selectedTextLabel == null
    {
      frame := SizeZero;
      videoTexts := map[];
      textLabels := [];
      subviews := [];
      selectedTextLabel := null;
    }

    /** A selected label that is still on the preview has a stored text, so the force-unwraps succeed. */
    lemma SelectedLabelIsBacked()
      requires Valid() && selectedTextLabel != null && selectedTextLabel in textLabels
      ensures selectedTextLabel.identifier in videoTexts
    {
    }

    /**
     * `addNewText(_:)`: stores the text (or the default one, whose id is
     * `defaultId`) under its id and puts one new label for it on top of the
     * stack. `color` is the palette colour `randomElement()` picks.
     */
    method AddNewText(text: Option<VideoText>, defaultId: string, color: Color)
      requires Valid()
      modifies this
      ensures Valid()
      ensures var v := text.GetOr(DefaultVideoText(defaultId, old(frame)));
        && videoTexts == old(videoTexts)[v.id := v]
        && |textLabels| == |old(textLabels)| + 1
        && textLabels[..|old(textLabels)|] == old(textLabels)
        && (var textLabel := textLabels[|old(textLabels)|];
            && fresh(textLabel)
            && subviews == old(subviews) + [textLabel]
            && textLabel.identifier == v.id && textLabel.text == v.text && textLabel.fontSize == v.fontSize
            && textLabel.center == v.position && textLabel.transform == RotationAngle(v.angle)
            && textLabel.textColor == color)
      ensures frame == old(frame) && selectedTextLabel == old(selectedTextLabel)
    {
      var videoText := text.GetOr(DefaultVideoText(defaultId, frame));
      var textLabel := new TextLabel(videoText, color);
      videoTexts := videoTexts[videoText.id := videoText];
      textLabels := textLabels + [textLabel];
      subviews := subviews + [textLabel];
    }

    /** `clearAllText()`: every label leaves the view, and both collections are emptied. */
    method ClearAllText()
      requires Valid()
      modifies this
      ensures Valid()
      ensures textLabels == [] && subviews == [] && videoTexts == map[]
      ensures frame == old(frame) && selectedTextLabel == old(selectedTextLabel)
    {
      var i := 0;
      while i < |textLabels|
        invariant 0 <= i <= |textLabels|
        invariant NoDup(subviews)
        invariant forall l :: l in subviews ==> l in old(subviews) && l !in textLabels[..i]
        invariant textLabels == old(textLabels) && videoTexts == old(videoTexts)
        invariant frame == old(frame) && selectedTextLabel == old(selectedTextLabel)
      {
        assert textLabels[..i + 1] == textLabels[..i] + [textLabels[i]];
        subviews := Without(subviews, textLabels[i]);
        i := i + 1;
      }
      assert textLabels[..i] == textLabels;
      EmptyWhenNoMember(subviews);
      textLabels := [];
      videoTexts := map[];
    }

    /**
     * The first `i` mock texts are on the preview, in order: one label per
     * text, stacked in that order, and the dictionary built from them.
     */
    ghost predicate ShowsMocks(mock: seq<VideoText>, colors: seq<Color>, i: nat)
      requires i <= |mock| && i <= |colors|
      reads this, textLabels
    {
      && Valid()
      && |textLabels| == i && subviews == textLabels
      && (forall j :: 0 <= j < i ==> textLabels[j].Shows(mock[j], colors[j]))
      && videoTexts == Inserted(mock[..i])
    }

    /** One pass of `loadMockData()`'s loop: `addNewText` of the `i`-th mock text. */
    method AddMockText(mock: seq<VideoText>, colors: seq<Color>, i: nat)
      requires i < |mock| && i < |colors| && ShowsMocks(mock, colors, i)
      modifies this
      ensures ShowsMocks(mock, colors, i + 1)
      ensures textLabels[..i] == old(textLabels) && fresh(textLabels[i])
      ensures frame == old(frame) && selectedTextLabel == old(selectedTextLabel)
    {
      ghost var labels := textLabels;
      InsertedSnoc(mock, i);
      AddNewText(Some(mock[i]), "", colors[i]);
      assert forall j :: 0 <= j < i ==> textLabels[j] == labels[j];
    }

    /**
     * `loadMockData()`: clears, then adds the three mock texts in order.
     * `ids` are the mock texts' UUIDs and `colors` the three random picks.
     */
    method LoadMockData(ids: seq<string>, colors: seq<Color>)
      requires Valid() && |ids| == 3 && |colors| == 3
      modifies this
      ensures Valid()
      ensures |textLabels| == 3 && subviews == textLabels
      ensures forall i :: 0 <= i < 3 ==> fresh(textLabels[i]) && textLabels[i].Shows(MockData(ids)[i], colors[i])
      ensures videoTexts == Inserted(MockData(ids))
      ensures NoDup(ids) ==> |videoTexts| == 3 && forall i :: 0 <= i < 3 ==> ids[i] in videoTexts && videoTexts[ids[i]] == MockData(ids)[i]
      ensures frame == old(frame) && selectedTextLabel == old(selectedTextLabel)
    {
      ClearAllText();
      var mock := MockData(ids);
      assert mock[..0] == [];
      for i := 0 to |mock|
        invariant ShowsMocks(mock, colors, i)
        invariant forall j :: 0 <= j < i ==> fresh(textLabels[j])
        invariant frame == old(frame) && selectedTextLabel == old(selectedTextLabel)
      {
        AddMockText(mock, colors, i);
      }
      assert mock[..3] == mock;
      MockDataStored(ids);
    }

    /** `selectText(label:)`: selects the label and brings it to the front. */
    method SelectText(textLabel: TextLabel)
      requires Valid()
      modifies this
      ensures Valid()
      ensures selectedTextLabel == textLabel && subviews == BringToFront(old(subviews), textLabel)
      ensures videoTexts == old(videoTexts) && textLabels == old(textLabels) && frame == old(frame)
    {
      selectedTextLabel := textLabel;
      subviews := BringToFront(subviews, textLabel);
    }

    /**
     * `updateLabel(_:)`: commits the label's angle and centre to its stored
     * text, applies the stored font size to the label and resets the
     * transform to the pure rotation, folding any scale into the font size.
     * The force-unwrap of `videoTexts[identifier]` requires the entry.
     */
    method UpdateLabel(textLabel: TextLabel)
      requires Valid() && textLabel.identifier in videoTexts
      modifies this, textLabel
      ensures Valid()
      ensures videoTexts == old(videoTexts)[textLabel.identifier :=
        old(videoTexts[textLabel.identifier]).(angle := old(textLabel.transform.angle), position := old(textLabel.center))]
      ensures textLabel.fontSize == old(videoTexts[textLabel.identifier].fontSize)
      ensures textLabel.transform == RotationAngle(old(textLabel.transform.angle))
      ensures textLabel.center == old(textLabel.center) && textLabel.text == old(textLabel.text)
      ensures textLabel.textColor == old(textLabel.textColor)
      ensures textLabels == old(textLabels) && subviews == old(subviews)
      ensures selectedTextLabel == old(selectedTextLabel) && frame == old(frame)
    {
      var identifier := textLabel.identifier;
      var center := textLabel.center;
      var radians := textLabel.transform.angle;
      textLabel.fontSize := videoTexts[identifier].fontSize;
      textLabel.transform := Identity;
      textLabel.center := center;
      textLabel.transform := RotationAngle(radians);
      videoTexts := videoTexts[identifier := videoTexts[identifier].(angle := radians)];
      videoTexts := videoTexts[identifier := videoTexts[identifier].(position := center)];
    }

    /**
     * `handleDrag(_:)`: with no selection, nothing. Otherwise the selected
     * label moves by the translation, is committed when the gesture ends, and
     * the translation is reset to zero.
     */
    method HandleDrag(gesture: PanGesture)
      requires Valid()
      requires selectedTextLabel != null && gesture.state == Ended ==> selectedTextLabel.identifier in videoTexts
      modifies this, selectedTextLabel, gesture
      ensures Valid()
      ensures textLabels == old(textLabels) && subviews == old(subviews)
      ensures selectedTextLabel == old(selectedTextLabel) && frame == old(frame)
      ensures gesture.state == old(gesture.state)
      ensures old(selectedTextLabel) == null ==>
        videoTexts == old(videoTexts) && gesture.translation == old(gesture.translation)
      ensures old(selectedTextLabel) != null ==>
        var l := old(selectedTextLabel);
        var moved := Translated(old(l.center), old(gesture.translation));
        && l.center == moved && gesture.translation == PointZero
        && l.text == old(l.text) && l.textColor == old(l.textColor)
        && (old(gesture.state) != Ended ==>
              videoTexts == old(videoTexts) && l.transform == old(l.transform) && l.fontSize == old(l.fontSize))
        && (old(gesture.state) == Ended ==>
              && videoTexts == old(videoTexts)[l.identifier :=
                   old(videoTexts[l.identifier]).(angle := old(l.transform.angle), position := moved)]
              && l.transform == RotationAngle(old(l.transform.angle))
              && l.fontSize == old(videoTexts[l.identifier].fontSize))
    {
      var textLabel := selectedTextLabel;
      if textLabel == null {
        return;
      }
      var translation := gesture.translation;
      textLabel.center := Translated(textLabel.center, translation);
      if gesture.state == Ended {
        UpdateLabel(textLabel);
      }
      gesture.translation := PointZero;
    }

    /**
     * `handlePinch(_:)`: with no selection, nothing. Otherwise, when the
     * gesture begins the stored font size restarts from the label's point
     * size; each step multiplies the stored font size and the label's scale
     * by the gesture's scale, commits when the gesture ends, and resets the
     * gesture's scale to 1. The force-unwrap of `videoTexts[identifier]`
     * requires the entry.
     */
    method HandlePinch(gesture: PinchGesture)
      requires Valid()
      requires selectedTextLabel != null ==> selectedTextLabel.identifier in videoTexts
      modifies this, selectedTextLabel, gesture
      ensures Valid()
      ensures textLabels == old(textLabels) && subviews == old(subviews)
      ensures selectedTextLabel == old(selectedTextLabel) && frame == old(frame)
      ensures gesture.state == old(gesture.state)
      ensures old(selectedTextLabel) == null ==> videoTexts == old(videoTexts) && gesture.scale == old(gesture.scale)
      ensures old(selectedTextLabel) != null ==>
        var l := old(selectedTextLabel);
        var id := l.identifier;
        var scaled := PinchedFontSize(old(gesture.state), old(l.fontSize), old(videoTexts[id].fontSize), old(gesture.scale));
        && gesture.scale == 1.0
        && l.center == old(l.center) && l.text == old(l.text) && l.textColor == old(l.textColor)
        && (old(gesture.state) != Ended ==>
              && videoTexts == old(videoTexts)[id := old(videoTexts[id]).(fontSize := scaled)]
              && l.transform == ScaledBy(old(l.transform), old(gesture.scale))
              && l.fontSize == old(l.fontSize))
        && (old(gesture.state) == Ended ==>
              && videoTexts == old(videoTexts)[id := old(videoTexts[id]).(fontSize := scaled,
                   angle := old(l.transform.angle), position := old(l.center))]
              && l.transform == RotationAngle(old(l.transform.angle))
              && l.fontSize == scaled)
    {
      var textLabel := selectedTextLabel;
      if textLabel == null {
        return;
      }
      var identifier := textLabel.identifier;
      ghost var before := videoTexts;
      if gesture.state == Began && identifier in videoTexts {
        videoTexts := videoTexts[identifier := videoTexts[identifier].(fontSize := textLabel.fontSize)];
      }
      var scale := gesture.scale;
      textLabel.transform := ScaledBy(textLabel.transform, scale);
      videoTexts := videoTexts[identifier := videoTexts[identifier].(fontSize := videoTexts[identifier].fontSize * scale)];
      ghost var scaled := PinchedFontSize(gesture.state, textLabel.fontSize, before[identifier].fontSize, scale);
      assert videoTexts[identifier].fontSize == scaled by {
        if gesture.state == Began {
          assert videoTexts[identifier].fontSize == textLabel.fontSize * scale;
        } else {
          assert videoTexts[identifier].fontSize == before[identifier].fontSize * scale;
        }
      }
      assert videoTexts == before[identifier := before[identifier].(fontSize := scaled)];
      if gesture.state == Ended {
        UpdateLabel(textLabel);
      }
      gesture.scale := 1.0;
    }

    /**
     * `handleRotation(_:)`: with no selection, nothing. Otherwise the
     * gesture's rotation is added to the label's angle, committed when the
     * gesture ends, and reset to 0.
     */
    method HandleRotation(gesture: RotationGesture)
      requires Valid()
      requires selectedTextLabel != null && gesture.state == Ended ==> selectedTextLabel.identifier in videoTexts
      modifies this, selectedTextLabel, gesture
      ensures Valid()
      ensures textLabels == old(textLabels) && subviews == old(subviews)
      ensures selectedTextLabel == old(selectedTextLabel) && frame == old(frame)
      ensures gesture.state == old(gesture.state)
      ensures old(selectedTextLabel) == null ==>
        videoTexts == old(videoTexts) && gesture.rotation == old(gesture.rotation)
      ensures old(selectedTextLabel) != null ==>
        var l := old(selectedTextLabel);
        var turned := Rotated(old(l.transform), old(gesture.rotation));
        && gesture.rotation == 0.0
        && l.center == old(l.center) && l.text == old(l.text) && l.textColor == old(l.textColor)
        && (old(gesture.state) != Ended ==>
              videoTexts == old(videoTexts) && l.transform == turned && l.fontSize == old(l.fontSize))
        && (old(gesture.state) == Ended ==>
              && videoTexts == old(videoTexts)[l.identifier :=
                   old(videoTexts[l.identifier]).(angle := turned.angle, position := old(l.center))]
              && l.transform == RotationAngle(turned.angle)
              && l.fontSize == old(videoTexts[l.identifier].fontSize))
    {
      var textLabel := selectedTextLabel;
      if textLabel == null {
        return;
      }
      textLabel.transform := Rotated(textLabel.transform, gesture.rotation);
      if gesture.state == Ended {
        UpdateLabel(textLabel);
      }
      gesture.rotation := 0.0;
    }

    /** `touchesBegan(_:with:)` on the preview: any touch clears the selection. */
    method TouchesBegan(touchCount: nat)
      requires Valid()
      modifies this
      ensures Valid()
      ensures selectedTextLabel == if touchCount > 0 then null else old(selectedTextLabel)
      ensures videoTexts == old(videoTexts) && textLabels == old(textLabels)
      ensures subviews == old(subviews) && frame == old(frame)
    {
      if touchCount > 0 {
        selectedTextLabel := null;
      }
    }

    /** `touchesEnded(_:with:)` on the preview: clears the selection. */
    method TouchesEnded()
      requires Valid()
      modifies this
      ensures Valid()
      ensures selectedTextLabel == null
      ensures videoTexts == old(videoTexts) && textLabels == old(textLabels)
      ensures subviews == old(subviews) && frame == old(frame)
    {
      selectedTextLabel := null;
    }
  }

  /**
   * A whole pinch on the selected label, `.began` at scale `first` and then
   * `.ended` at scale `last`: the stored and the shown font size become the
   * label's point size times both scales, the label is back at a pure
   * rotation, and the text keeps the label's angle and centre.
   */
  method PinchFoldsScaleIntoFontSize(preview: VideoTextPreview, pinch: PinchGesture, first: real, last: real)
    requires preview.Valid() && preview.selectedTextLabel != null
    requires preview.selectedTextLabel.identifier in preview.videoTexts
    requires pinch.state == Began && pinch.scale == first
    modifies preview, preview.selectedTextLabel, pinch
    ensures preview.Valid() && preview.selectedTextLabel == old(preview.selectedTextLabel)
    ensures var l := old(preview.selectedTextLabel);
      && l.fontSize == old(l.fontSize) * first * last
      && preview.videoTexts == old(preview.videoTexts)[l.identifier :=
           old(preview.videoTexts[l.identifier]).(fontSize := old(l.fontSize) * first * last,
             angle := old(l.transform.angle), position := old(l.center))]
      && l.transform == RotationAngle(old(l.transform.angle))
  {
    preview.HandlePinch(pinch);
    pinch.state, pinch.scale := Ended, last;
    preview.HandlePinch(pinch);
  }
}
