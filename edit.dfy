/**
 * The record edit page: on construction it derives the photo preview of the
 * record and rewrites, in place, every field whose characteristic is an
 * `xsd:datetime` into display text. The display conversion itself
 * (`displayTime`, which depends on the clock and the local time zone) is a
 * parameter of the page and stays uninterpreted.
 */
module Edit {
  import opened Js
  import opened Ontology

  const DateTimeType := "xsd:datetime"
  const ImagePrefix := "data:image/png;base64,"

  /** `displayTime(characteristic, value)`: the display text of a date field. */
  type DisplayTime = (Characteristic, Value) -> string

  /**
   * `pad(n)`: a number below ten gets a leading '0' (and becomes text);
   * any other number is returned unchanged.
   */
  function Pad(n: int): (r: Value)
    ensures n < 10 ==> r.Str? && |r.s| >= 2 && r.s[..1] == "0" && r.s[1..] == IntText(n)
    ensures n >= 10 ==> r == Num(n)
    ensures 0 <= n < 100 ==> |Text(r)| == 2 && AllDigits(Text(r)) && ParseNat(Text(r)) == n
  {
    if n < 10 then
      var t := "0" + IntText(n);
      assert t[..1] == "0" && t[1..] == IntText(n);
      assert 0 <= n ==> ParseNat(t[..|t| - 1]) == 0 by {
        if 0 <= n {
          assert t[..|t| - 1] == "0";
        }
      }
      Str(t)
    else
      Num(n)
  }

  /**
   * The photo preview: a PNG data URL built from the record's `Photo`
   * field, or nothing when that field is null or missing.
   */
  function ImageFor(record: Record): (r: Option<string>)
    ensures r.Some? <==> IsPresent(Get(record, "Photo"))
    ensures r.Some? ==>
      && |r.value| >= |ImagePrefix|
      && r.value[..|ImagePrefix|] == ImagePrefix
      && r.value[|ImagePrefix|..] == Text(Get(record, "Photo"))
  {
    var photo := Get(record, "Photo");
    if IsPresent(photo) then
      var url := ImagePrefix + Text(photo);
      assert url[..|ImagePrefix|] == ImagePrefix && url[|ImagePrefix|..] == Text(photo);
      Some(url)
    else
      None
  }

  predicate IsDateTime(c: Characteristic) {
    c.dataType == DateTimeType
  }

  /** The effect of one loop iteration: a date field is replaced by its display text. */
  function RewriteOne(c: Characteristic, rec: Record, displayTime: DisplayTime): Record {
    if IsDateTime(c) then rec[c.fieldLabel := Str(displayTime(c, Get(rec, c.fieldLabel)))] else rec
  }

  /** The record after the characteristics `cs` have been examined, in order, each once. */
  function DatesRewritten(cs: seq<Characteristic>, rec: Record, displayTime: DisplayTime): Record
    decreases |cs|
  {
    if cs == [] then rec
    else RewriteOne(cs[|cs| - 1], DatesRewritten(cs[..|cs| - 1], rec, displayTime), displayTime)
  }

  /** A field that no date characteristic labels is exactly as it was (present or missing). */
  lemma {:induction false} NonDateFieldUnchanged(
    cs: seq<Characteristic>, rec: Record, displayTime: DisplayTime, key: string)
    requires forall k :: 0 <= k < |cs| && IsDateTime(cs[k]) ==> cs[k].fieldLabel != key
    ensures var r := DatesRewritten(cs, rec, displayTime);
      && (key in r <==> key in rec)
      && (key in rec ==> r[key] == rec[key])
    decreases |cs|
  {
    if cs != [] {
      var init := cs[..|cs| - 1];
      forall k | 0 <= k < |init| && IsDateTime(init[k]) ensures init[k].fieldLabel != key {
        assert init[k] == cs[k];
      }
      NonDateFieldUnchanged(init, rec, displayTime, key);
    }
  }

  /** The record keeps all its fields and gains the labels of date characteristics it lacked. */
  lemma {:induction false} DatesRewrittenKeys(cs: seq<Characteristic>, rec: Record, displayTime: DisplayTime)
    ensures DatesRewritten(cs, rec, displayTime).Keys
         == rec.Keys + set k | 0 <= k < |cs| && IsDateTime(cs[k]) :: cs[k].fieldLabel
    decreases |cs|
  {
    if cs != [] {
      var init := cs[..|cs| - 1];
      DatesRewrittenKeys(init, rec, displayTime);
      var before := set k | 0 <= k < |init| && IsDateTime(init[k]) :: init[k].fieldLabel;
      var after := set k | 0 <= k < |cs| && IsDateTime(cs[k]) :: cs[k].fieldLabel;
      var last := cs[|cs| - 1];
      assert after == before + (if IsDateTime(last) then {last.fieldLabel} else {}) by {
        forall x | x in after ensures x in before + (if IsDateTime(last) then {last.fieldLabel} else {}) {
          var k :| 0 <= k < |cs| && IsDateTime(cs[k]) && cs[k].fieldLabel == x;
          if k < |init| {
            assert init[k] == cs[k];
          }
        }
        forall x | x in before ensures x in after {
          var k :| 0 <= k < |init| && IsDateTime(init[k]) && init[k].fieldLabel == x;
          assert cs[k] == init[k];
        }
      }
    }
  }

  /**
   * A date field labelled by exactly one date characteristic ends up as the
   * display text of its original value.
   */
  lemma {:induction false} LoneDateFieldRewritten(
    cs: seq<Characteristic>, rec: Record, displayTime: DisplayTime, j: nat)
    requires j < |cs| && IsDateTime(cs[j])
    requires forall k :: 0 <= k < |cs| && k != j && IsDateTime(cs[k]) ==> cs[k].fieldLabel != cs[j].fieldLabel
    ensures var key := cs[j].fieldLabel;
      var r := DatesRewritten(cs, rec, displayTime);
      key in r && r[key] == Str(displayTime(cs[j], Get(rec, key)))
    decreases |cs|
  {
    var init := cs[..|cs| - 1];
    var key := cs[j].fieldLabel;
    if j == |cs| - 1 {
      forall k | 0 <= k < |init| && IsDateTime(init[k]) ensures init[k].fieldLabel != key {
        assert init[k] == cs[k];
      }
      NonDateFieldUnchanged(init, rec, displayTime, key);
      assert Get(DatesRewritten(init, rec, displayTime), key) == Get(rec, key);
    } else {
      assert init[j] == cs[j];
      forall k | 0 <= k < |init| && k != j && IsDateTime(init[k])
        ensures init[k].fieldLabel != init[j].fieldLabel
      {
        assert init[k] == cs[k];
      }
      LoneDateFieldRewritten(init, rec, displayTime, j);
    }
  }

  class EditPage {
    /** The tier description the record belongs to (`navParams.data[0]`). */
    const item: Tier
    /** The record being edited (`navParams.data[1]`), rewritten in place. */
    var dataObject: Record
    /** The photo preview; `None` is the unset field. */
    var image: Option<string>
    const displayTime: DisplayTime

    constructor (item: Tier, record: Record, displayTime: DisplayTime)
      ensures this.item == item && this.displayTime == displayTime
      ensures image == ImageFor(record)
      ensures dataObject == DatesRewritten(item.characteristics, record, displayTime)
    {
      this.item := item;
      this.dataObject := record;
      this.displayTime := displayTime;
      this.image := ImageFor(record);
      new;
      EditDateFields();
    }

    /** `editDateFields`: one pass over the characteristics, rewriting the date fields in place. */
    method EditDateFields()
      modifies this`dataObject
      ensures dataObject == DatesRewritten(item.characteristics, old(dataObject), displayTime)
    {
      var cs := item.characteristics;
      var i := 0;
      while i < |cs|
        invariant 0 <= i <= |cs|
        invariant dataObject == DatesRewritten(cs[..i], old(dataObject), displayTime)
      {
        var c := cs[i];
        if c.dataType == DateTimeType {
          dataObject := dataObject[c.fieldLabel := Str(displayTime(c, Get(dataObject, c.fieldLabel)))];
        }
        assert cs[..i + 1][..i] == cs[..i];
        i := i + 1;
      }
      assert cs[..i] == cs;
    }
  }
}
