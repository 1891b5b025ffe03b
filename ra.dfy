/** The `/api/ra` handler of index.js, once the page is fetched and parsed:
    the student registration number (RA) is read off the `<label>` that
    immediately follows the label reading `Número da RA:`. The page is given
    as its `<label>` elements in document order, each with the element that
    immediately follows it, if any. */
module RaLookup {
  import opened Text
  import opened Wrappers

  /** An element of the page: its tag name and its text content (the text
      of all its descendants, as `.text()` returns it). */
  datatype Element = Element(tag: string, text: string)

  /** A `<label>` element of the page, with its next sibling element. */
  datatype Label = Label(text: string, next: Option<Element>)

  /** The handler's reply: `{ ra }`, or the 500 reply `RA not found.`. */
  datatype Reply = Ra(ra: string) | RaNotFound

  const Marker: string := "Número da RA:"

  predicate IsMarker(l: Label) {
    Trim(l.text) == Marker
  }

  /** `targetDiv.next('label')`: the next sibling, kept only when it is a
      `<label>`. */
  function NextLabel(l: Label): (r: Option<Element>)
    ensures r.Some? <==> l.next.Some? && l.next.value.tag == "label"
    ensures r.Some? ==> r == l.next
  {
    match l.next
    case Some(e) => if e.tag == "label" then Some(e) else None
    case None => None
  }

  /** The index of the first `true` at or after `from`. */
  function FirstTrue(bs: seq<bool>, from: nat): (r: Option<nat>)
    requires from <= |bs|
    ensures r.Some? ==> from <= r.value < |bs| && bs[r.value]
    ensures r.Some? ==> forall j :: from <= j < r.value ==> !bs[j]
    ensures r.None? ==> forall j :: from <= j < |bs| ==> !bs[j]
    decreases |bs| - from
  {
    if from == |bs| then None
    else if bs[from] then Some(from)
    else FirstTrue(bs, from + 1)
  }

  /** Which labels of the page are markers. */
  function Marks(labels: seq<Label>): (bs: seq<bool>)
    ensures |bs| == |labels|
  {
    seq(|labels|, i requires 0 <= i < |labels| => IsMarker(labels[i]))
  }

  /** `$('label').filter(...).first()`: the first label of the page whose
      trimmed text is exactly the marker. */
  function FirstMarker(labels: seq<Label>): (r: Option<nat>)
    ensures r.Some? ==> r.value < |labels| && IsMarker(labels[r.value])
    ensures r.Some? ==> forall j :: 0 <= j < r.value ==> !IsMarker(labels[j])
    ensures r.None? ==> forall j :: 0 <= j < |labels| ==> !IsMarker(labels[j])
  {
    var bs := Marks(labels);
    var r := FirstTrue(bs, 0);
    assert forall j :: 0 <= j < |labels| ==> bs[j] == IsMarker(labels[j]);
    r
  }

  /** `text.split('-')[0].trim()`. */
  function RaOf(text: string): (r: string)
    ensures Avoids(r, '-')
    ensures r == [] || (!IsSpace(r[0]) && !IsSpace(r[|r| - 1]))
  {
    TrimAvoids(BeforeFirst(text, '-'), '-');
    Trim(BeforeFirst(text, '-'))
  }

  /** The whole handler after the fetch. */
  function LookupRa(labels: seq<Label>): (r: Reply)
    ensures r.Ra? ==> Avoids(r.ra, '-')
    ensures r.Ra? ==> r.ra == [] || (!IsSpace(r.ra[0]) && !IsSpace(r.ra[|r.ra| - 1]))
  {
    match FirstMarker(labels)
    case None => RaNotFound
    case Some(i) =>
      match NextLabel(labels[i])
      case Some(e) => Ra(RaOf(e.text))
      case None => RaNotFound
  }

  /** The search stops at the first `true`. */
  lemma {:induction false} FirstTrueAt(bs: seq<bool>, from: nat, i: nat)
    requires from <= i < |bs| && bs[i]
    requires forall j :: from <= j < i ==> !bs[j]
    ensures FirstTrue(bs, from) == Some(i)
    decreases i - from
  {
    if from < i {
      FirstTrueAt(bs, from + 1, i);
    }
  }

  /** The reply is read off the label after the first marker, whatever
      follows it: a second marker further down is never looked at. */
  lemma LookupAtFirstMarker(labels: seq<Label>, i: nat)
    requires i < |labels| && IsMarker(labels[i])
    requires forall j :: 0 <= j < i ==> !IsMarker(labels[j])
    ensures LookupRa(labels) == match NextLabel(labels[i])
      case Some(e) => Ra(RaOf(e.text))
      case None => RaNotFound
  {
    var bs := Marks(labels);
    assert forall j :: 0 <= j < i ==> !bs[j];
    FirstTrueAt(bs, 0, i);
  }

  /** There is an RA exactly when some label is the first marker and is
      followed by a `<label>`. */
  lemma LookupRaFound(labels: seq<Label>)
    ensures LookupRa(labels).Ra? <==> exists i :: (0 <= i < |labels| && IsMarker(labels[i])
      && (forall j :: 0 <= j < i ==> !IsMarker(labels[j]))
      && NextLabel(labels[i]).Some?)
  {
    match FirstMarker(labels)
    case None =>
    case Some(i) =>
      if LookupRa(labels).Ra? {
        assert NextLabel(labels[i]).Some?;
      } else {
        forall i' | 0 <= i' < |labels| && IsMarker(labels[i'])
            && (forall j :: 0 <= j < i' ==> !IsMarker(labels[j]))
          ensures i' == i
        {
        }
      }
  }

  /** Labels after the first marker do not change the reply. */
  lemma LookupIgnoresLater(labels: seq<Label>, i: nat, more: seq<Label>)
    requires i < |labels| && IsMarker(labels[i])
    requires forall j :: 0 <= j < i ==> !IsMarker(labels[j])
    ensures LookupRa(labels + more) == LookupRa(labels)
  {
    LookupAtFirstMarker(labels, i);
    LookupAtFirstMarker(labels + more, i);
  }

  /** The RA is the core of the text before the first `-`: a registration
      number padded with white space and followed by `-` and anything at all
      is read back exactly. */
  lemma RaOfPadded(a: string, ra: string, b: string, rest: string)
    requires AllSpace(a) && AllSpace(b)
    requires Avoids(ra, '-')
    requires ra == [] || (!IsSpace(ra[0]) && !IsSpace(ra[|ra| - 1]))
    ensures RaOf(a + ra + b + "-" + rest) == ra
  {
    assert Avoids(a, '-') && Avoids(b, '-');
    AvoidsAppend(a, ra, '-');
    AvoidsAppend(a + ra, b, '-');
    BeforeFirstOf(a + ra + b, '-', rest);
    TrimOfPadded(a, ra, b);
  }

  /** A text without `-` is read whole, trimmed. */
  lemma RaOfPlain(a: string, ra: string, b: string)
    requires AllSpace(a) && AllSpace(b)
    requires Avoids(ra, '-')
    requires ra == [] || (!IsSpace(ra[0]) && !IsSpace(ra[|ra| - 1]))
    ensures RaOf(a + ra + b) == ra
  {
    var s := a + ra + b;
    assert Avoids(s, '-');
    assert BeforeFirst(s, '-') == s;
    TrimOfPadded(a, ra, b);
  }

  /** A marker label, padded with white space. */
  lemma PaddedMarker(next: Option<Element>)
    ensures IsMarker(Label(" " + Marker + " ", next))
  {
    TrimOfPadded(" ", Marker, " ");
  }

  /** `"<digits> - <name>".split('-')[0].trim()` is the digits. */
  lemma RaOfNumbered(ra: string, name: string)
    requires |ra| > 0 && AllDigits(ra)
    ensures RaOf(ra + " - " + name) == ra
  {
    assert Avoids(ra, '-') by {
      forall i | 0 <= i < |ra| ensures ra[i] != '-' {
        assert IsDigit(ra[i]);
      }
    }
    assert !IsSpace(ra[0]) && !IsSpace(ra[|ra| - 1]) by {
      assert IsDigit(ra[0]) && IsDigit(ra[|ra| - 1]);
    }
    assert ra + " - " + name == "" + ra + " " + "-" + (" " + name);
    RaOfPadded("", ra, " ", " " + name);
  }

  /** A page whose marker label is followed by a label `"<ra> - <name>"`
      answers with that RA. */
  lemma PageWithRa(before: Label, ra: string, name: string)
    requires !IsMarker(before)
    requires |ra| > 0 && AllDigits(ra)
    ensures var page := [before, Label(" " + Marker + " ", Some(Element("label", ra + " - " + name)))];
      LookupRa(page) == Ra(ra)
  {
    var next := Some(Element("label", ra + " - " + name));
    PaddedMarker(next);
    LookupAtFirstMarker([before, Label(" " + Marker + " ", next)], 1);
    RaOfNumbered(ra, name);
  }

  /** A marker followed by something other than a `<label>` gives no RA. */
  lemma PageWithoutLabel(ra: string)
    ensures LookupRa([Label(Marker, Some(Element("div", ra)))]) == RaNotFound
  {
    TrimOfPadded("", Marker, "");
    assert "" + Marker + "" == Marker;
    LookupAtFirstMarker([Label(Marker, Some(Element("div", ra)))], 0);
  }
}
