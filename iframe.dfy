/**
 * lib/iframe.js: the literals the embeddable badge is built from — the
 * "active/total" count label, the button class and the numbers handed to
 * the badge's script.  The counts are those SlackData holds: absent until
 * the first successful fetch.
 */
module IFrame {
  import opened Wrappers
  import JsText

  /** The label shown when there is nothing to count: an en dash. */
  const NoCount: string := "\U{2013}"

  /** A count as a JavaScript condition sees it: absent and zero are both false. */
  predicate Truthy(v: Option<nat>) {
    v.Some? && v.value != 0
  }

  /** The count label: `active/` when there are active users, then `total`, or the dash when both are missing. */
  function CountLabel(active: Option<nat>, total: Option<nat>): (r: string)
    ensures r != []
  {
    var a := if Truthy(active) then JsText.NatToString(active.value) + "/" else "";
    var t := if Truthy(total) then a + JsText.NatToString(total.value) else a;
    if |t| == 0 then NoCount else t
  }

  /**
   * What the label shows in each case: both numbers separated by `/` (and
   * read back from it), the active count alone with a trailing `/`, the
   * total alone, or the dash exactly when neither count is set.
   */
  lemma LabelCases(active: Option<nat>, total: Option<nat>)
    ensures Truthy(active) && Truthy(total) ==>
      JsText.Split(CountLabel(active, total), '/') == [JsText.NatToString(active.value), JsText.NatToString(total.value)]
    ensures Truthy(active) && !Truthy(total) ==> CountLabel(active, total) == JsText.NatToString(active.value) + "/"
    ensures !Truthy(active) && Truthy(total) ==> CountLabel(active, total) == JsText.NatToString(total.value)
    ensures CountLabel(active, total) == NoCount <==> !Truthy(active) && !Truthy(total)
  {
    if Truthy(active) && Truthy(total) {
      var x, y := JsText.NatToString(active.value), JsText.NatToString(total.value);
      assert '/' !in x && '/' !in y by {
        assert forall i :: 0 <= i < |x| ==> JsText.IsDigit(x[i]);
        assert forall i :: 0 <= i < |y| ==> JsText.IsDigit(y[i]);
      }
      assert JsText.Join([x, y], '/') == x + "/" + y;
      JsText.SplitJoin([x, y], '/');
    }
    if Truthy(active) {
      var x := JsText.NatToString(active.value);
      assert CountLabel(active, total)[0] == x[0];
      assert JsText.IsDigit(x[0]);
    } else if Truthy(total) {
      var y := JsText.NatToString(total.value);
      assert JsText.IsDigit(y[0]);
    }
  }

  /** The class of the outer button: `slack-btn-large` for the large badge, empty otherwise. */
  function ButtonClass(large: bool): (r: string)
    ensures r != [] <==> large
  {
    if large then "slack-btn-large" else ""
  }

  /** A count as the badge's script receives it: `total != null ? total : 'null'`. */
  function DataLiteral(v: Option<nat>): (r: string)
    ensures v.Some? ==> r != [] && forall i :: 0 <= i < |r| ==> JsText.IsDigit(r[i])
    ensures v.Some? && v.value == 0 ==> r == "0"
  {
    if v.Some? then JsText.NatToString(v.value) else "null"
  }

  /** Unlike the label, the script is given a zero count as the number 0, and reads back the number it was given. */
  lemma DataLiteralReadsBack(v: Option<nat>)
    ensures v.Some? ==> JsText.DecimalValue(DataLiteral(v)) == v.value
    ensures DataLiteral(v) == "null" <==> v.None?
  {
    if v.Some? {
      JsText.DecimalRoundTrip(v.value);
      assert JsText.IsDigit(DataLiteral(v)[0]);
    }
  }
}
