/** The additional-attribute dictionaries handed to FluentUI buttons: the copy-to-clipboard button
    and the open-text-visualizer button. A dictionary is its entries in insertion order. */
module FluentUiAttributes {
  import opened Wrappers

  /** An attribute value: a string, or some other object known only by identity. */
  datatype AttributeValue = StringValue(text: string) | ObjectValue(id: nat)

  type Attribute = (string, AttributeValue)

  const DataText := "data-text"
  const DataPrecopy := "data-precopy"
  const DataPostcopy := "data-postcopy"
  const DataCopyButton := "data-copybutton"
  const DataVisualizerText := "data-textvisualizer-text"
  const DataVisualizerDescription := "data-textvisualizer-description"

  /** `AttributeKeyComparer.Equals`: ordinal comparison, character by character. */
  predicate KeyEquals(x: string, y: string) {
    |x| == |y| && forall i :: 0 <= i < |x| ==> x[i] == y[i]
  }

  /** Ordinal key equality is exactly string equality: an equivalence that tells case apart. */
  lemma KeyEqualsIsEquality(x: string, y: string)
    ensures KeyEquals(x, y) <==> x == y
    ensures KeyEquals(x, y) == KeyEquals(y, x)
    ensures !KeyEquals(DataText, "Data-Text")
  {
    if KeyEquals(x, y) {
      assert x == y;
    }
    assert "Data-Text"[0] == 'D';
  }

  /** `ContainsKey` under the ordinal comparer. */
  function ContainsKey(attributes: seq<Attribute>, key: string): (r: bool)
    ensures r <==> exists i :: 0 <= i < |attributes| && attributes[i].0 == key
  {
    if |attributes| == 0 then false
    else (KeyEqualsIsEquality(attributes[0].0, key); KeyEquals(attributes[0].0, key)) || ContainsKey(attributes[1..], key)
  }

  /** The value stored under `key`, if any (the first entry with that key). */
  function Lookup(attributes: seq<Attribute>, key: string): (r: Option<AttributeValue>)
    ensures r.Some? <==> ContainsKey(attributes, key)
  {
    if |attributes| == 0 then None
    else if attributes[0].0 == key then Some(attributes[0].1)
    else Lookup(attributes[1..], key)
  }

  function Keys(attributes: seq<Attribute>): (ks: seq<string>)
    ensures |ks| == |attributes|
    ensures forall i :: 0 <= i < |ks| ==> ks[i] == attributes[i].0
  {
    if |attributes| == 0 then [] else [attributes[0].0] + Keys(attributes[1..])
  }

  predicate DistinctKeys(attributes: seq<Attribute>) {
    forall i, j :: 0 <= i < j < |attributes| ==> attributes[i].0 != attributes[j].0
  }

  /** A chain of `Dictionary.Add` calls: every extra is appended in order, and the first whose key
      is already present makes the chain throw, reported as that key. */
  function AddAll(attributes: seq<Attribute>, extras: seq<Attribute>): (r: Result<seq<Attribute>, string>)
    ensures r.Ok? ==> r.value == attributes + extras
    ensures r.Err? ==> exists j :: 0 <= j < |extras| && extras[j].0 == r.error && ContainsKey(attributes + extras[..j], r.error)
    decreases |extras|
  {
    if |extras| == 0 then Ok(attributes)
    else if ContainsKey(attributes, extras[0].0) then
      assert extras[..0] == [];
      assert attributes + extras[..0] == attributes;
      Err(extras[0].0)
    else
      var r := AddAll(attributes + [extras[0]], extras[1..]);
      assert attributes + [extras[0]] + extras[1..] == attributes + extras;
      if r.Err? then AddAllErrorShift(attributes, extras, r.error); r else r
  }

  /** A key that clashes after the first extra was appended clashes within the whole chain. */
  lemma AddAllErrorShift(attributes: seq<Attribute>, extras: seq<Attribute>, key: string)
    requires |extras| > 0
    requires exists j :: 0 <= j < |extras[1..]| && extras[1..][j].0 == key &&
                         ContainsKey(attributes + [extras[0]] + extras[1..][..j], key)
    ensures exists j :: 0 <= j < |extras| && extras[j].0 == key && ContainsKey(attributes + extras[..j], key)
  {
    var j :| 0 <= j < |extras[1..]| && extras[1..][j].0 == key &&
             ContainsKey(attributes + [extras[0]] + extras[1..][..j], key);
    assert attributes + [extras[0]] + extras[1..][..j] == attributes + extras[..j + 1];
    assert extras[j + 1] == extras[1..][j];
  }

  /** The chain throws exactly when the keys of the entries and extras together are not all
      distinct. */
  lemma {:induction false} AddAllSucceedsIffDistinct(attributes: seq<Attribute>, extras: seq<Attribute>)
    requires DistinctKeys(attributes)
    ensures AddAll(attributes, extras).Ok? <==> DistinctKeys(attributes + extras)
    decreases |extras|
  {
    if |extras| == 0 {
      assert attributes + extras == attributes;
    } else if ContainsKey(attributes, extras[0].0) {
      var i :| 0 <= i < |attributes| && attributes[i].0 == extras[0].0;
      assert (attributes + extras)[|attributes|] == extras[0];
      assert (attributes + extras)[i] == attributes[i];
    } else {
      var next := attributes + [extras[0]];
      assert DistinctKeys(next) by {
        forall i, j | 0 <= i < j < |next| ensures next[i].0 != next[j].0 {
          if j == |attributes| {
            assert next[j] == extras[0];
            assert next[i] == attributes[i];
          }
        }
      }
      AddAllSucceedsIffDistinct(next, extras[1..]);
      assert next + extras[1..] == attributes + extras;
    }
  }

  /** The value under a key of `prefix` is not affected by what follows it. */
  lemma {:induction false} LookupPrefix(prefix: seq<Attribute>, suffix: seq<Attribute>, key: string)
    requires ContainsKey(prefix, key)
    ensures Lookup(prefix + suffix, key) == Lookup(prefix, key)
  {
    if prefix[0].0 != key {
      assert (prefix + suffix)[1..] == prefix[1..] + suffix;
      LookupPrefix(prefix[1..], suffix, key);
    }
  }

  /** The `foreach` of `Add` calls in both builders. */
  method AddAttributes(attributes: seq<Attribute>, extras: seq<Attribute>) returns (r: Result<seq<Attribute>, string>)
    ensures r == AddAll(attributes, extras)
  {
    var current := attributes;
    var i := 0;
    while i < |extras|
      invariant 0 <= i <= |extras|
      invariant AddAll(attributes, extras) == AddAll(current, extras[i..])
    {
      assert extras[i..][0] == extras[i] && extras[i..][1..] == extras[i + 1..];
      if ContainsKey(current, extras[i].0) {
        return Err(extras[i].0);
      }
      current := current + [extras[i]];
      i := i + 1;
    }
    return Ok(current);
  }

  /** The four entries every clipboard button starts with. */
  function ClipboardBase(text: Option<string>, precopy: Option<string>, postcopy: Option<string>): seq<Attribute> {
    [(DataText, StringValue(text.GetOr(""))),
     (DataPrecopy, StringValue(precopy.GetOr(""))),
     (DataPostcopy, StringValue(postcopy.GetOr(""))),
     (DataCopyButton, StringValue("true"))]
  }

  /** `GetClipboardCopyAdditionalAttributes`. */
  method GetClipboardCopyAdditionalAttributes(text: Option<string>, precopy: Option<string>, postcopy: Option<string>, additionalAttributes: seq<Attribute>)
    returns (r: Result<seq<Attribute>, string>)
    ensures r == AddAll(ClipboardBase(text, precopy, postcopy), additionalAttributes)
  {
    r := AddAttributes(ClipboardBase(text, precopy, postcopy), additionalAttributes);
  }

  /** The fixed clipboard entries have distinct keys and hold the given texts, null read as "". */
  lemma ClipboardBaseEntries(text: Option<string>, precopy: Option<string>, postcopy: Option<string>)
    ensures var base := ClipboardBase(text, precopy, postcopy);
            DistinctKeys(base) &&
            Lookup(base, DataText) == Some(StringValue(text.GetOr(""))) &&
            Lookup(base, DataPrecopy) == Some(StringValue(precopy.GetOr(""))) &&
            Lookup(base, DataPostcopy) == Some(StringValue(postcopy.GetOr(""))) &&
            Lookup(base, DataCopyButton) == Some(StringValue("true"))
  {
    var base := ClipboardBase(text, precopy, postcopy);
    assert |DataText| == 9 && |DataPrecopy| == 12 && |DataPostcopy| == 13 && |DataCopyButton| == 15;
    assert base[1..][1..] == base[2..] && base[2..][1..] == base[3..];
    assert Lookup(base[3..], DataCopyButton) == Some(StringValue("true"));
    assert Lookup(base[2..], DataPostcopy) == Some(StringValue(postcopy.GetOr("")));
    assert Lookup(base[2..], DataCopyButton) == Some(StringValue("true"));
  }

  /** The clipboard dictionary always has its four fixed entries, null text read as "", followed by
      the extras in order; it throws exactly when an extra repeats a key. */
  lemma ClipboardAttributes(text: Option<string>, precopy: Option<string>, postcopy: Option<string>, additionalAttributes: seq<Attribute>)
    ensures var r := AddAll(ClipboardBase(text, precopy, postcopy), additionalAttributes);
            (r.Ok? <==> DistinctKeys(ClipboardBase(text, precopy, postcopy) + additionalAttributes)) &&
            (r.Ok? ==>
               |r.value| == 4 + |additionalAttributes| && r.value[4..] == additionalAttributes &&
               Lookup(r.value, DataText) == Some(StringValue(text.GetOr(""))) &&
               Lookup(r.value, DataPrecopy) == Some(StringValue(precopy.GetOr(""))) &&
               Lookup(r.value, DataPostcopy) == Some(StringValue(postcopy.GetOr(""))) &&
               Lookup(r.value, DataCopyButton) == Some(StringValue("true")))
  {
    var base := ClipboardBase(text, precopy, postcopy);
    ClipboardBaseEntries(text, precopy, postcopy);
    AddAllSucceedsIffDistinct(base, additionalAttributes);
    LookupPrefix(base, additionalAttributes, DataText);
    LookupPrefix(base, additionalAttributes, DataPrecopy);
    LookupPrefix(base, additionalAttributes, DataPostcopy);
    LookupPrefix(base, additionalAttributes, DataCopyButton);
    assert (base + additionalAttributes)[4..] == additionalAttributes;
  }

  function VisualizerBase(textValue: string, textValueDescription: string): seq<Attribute> {
    [(DataVisualizerText, StringValue(textValue)), (DataVisualizerDescription, StringValue(textValueDescription))]
  }

  /** `GetOpenTextVisualizerAdditionalAttributes`. */
  method GetOpenTextVisualizerAdditionalAttributes(textValue: string, textValueDescription: string, additionalAttributes: seq<Attribute>)
    returns (r: Result<seq<Attribute>, string>)
    ensures r == AddAll(VisualizerBase(textValue, textValueDescription), additionalAttributes)
  {
    r := AddAttributes(VisualizerBase(textValue, textValueDescription), additionalAttributes);
  }

  /** The visualizer dictionary's keys are exactly its two fixed keys and then the extras' keys. */
  lemma VisualizerAttributes(textValue: string, textValueDescription: string, additionalAttributes: seq<Attribute>)
    ensures var r := AddAll(VisualizerBase(textValue, textValueDescription), additionalAttributes);
            (r.Ok? <==> DistinctKeys(VisualizerBase(textValue, textValueDescription) + additionalAttributes)) &&
            (r.Ok? ==>
               Keys(r.value) == [DataVisualizerText, DataVisualizerDescription] + Keys(additionalAttributes) &&
               Lookup(r.value, DataVisualizerText) == Some(StringValue(textValue)) &&
               Lookup(r.value, DataVisualizerDescription) == Some(StringValue(textValueDescription)))
  {
    var base := VisualizerBase(textValue, textValueDescription);
    AddAllSucceedsIffDistinct(base, additionalAttributes);
    assert ContainsKey(base, DataVisualizerText) by { assert base[0].0 == DataVisualizerText; }
    assert ContainsKey(base, DataVisualizerDescription) by { assert base[1].0 == DataVisualizerDescription; }
    LookupPrefix(base, additionalAttributes, DataVisualizerText);
    LookupPrefix(base, additionalAttributes, DataVisualizerDescription);
  }
}
