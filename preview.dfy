/**
 * `preview_text.run`: a single input is wrapped into a one-element list,
 * and every element that is not already a string is turned into one with
 * `str()`, which is the parameter `toString` (its workings belong to Python).
 */
module Preview {

  /** One element of the input: a Python string, or any other object. */
  datatype Item<V> = Str(s: string) | Other(v: V)

  /** The `text` argument: a list, or anything else. */
  datatype TextInput<V> = Single(item: Item<V>) | ListOf(items: seq<Item<V>>)

  /** The returned dict: `{"ui": {"text": uiText}, "text": text}`. */
  datatype PreviewResult = PreviewResult(uiText: seq<string>, text: seq<string>)

  /** Lines 38-39: the list the loop walks over. */
  function AsList<V>(input: TextInput<V>): seq<Item<V>> {
    match input
    case Single(x) => [x]
    case ListOf(xs) => xs
  }

  function Coerce<V>(item: Item<V>, toString: V -> string): string {
    match item
    case Str(s) => s
    case Other(v) => toString(v)
  }

  /** Lines 37-48: same length and order as the input list; strings unchanged, everything else through `str()`. */
  method Run<V>(input: TextInput<V>, toString: V -> string) returns (r: PreviewResult)
    ensures r.uiText == r.text
    ensures |r.text| == |AsList(input)|
    ensures forall k :: 0 <= k < |r.text| ==> r.text[k] == Coerce(AsList(input)[k], toString)
    ensures forall k :: 0 <= k < |r.text| && AsList(input)[k].Str? ==> r.text[k] == AsList(input)[k].s
  {
    var items := AsList(input);
    var texts: seq<string> := [];
    for i := 0 to |items|
      invariant |texts| == i
      invariant forall k :: 0 <= k < i ==> texts[k] == Coerce(items[k], toString)
    {
      var t := match items[i] case Str(s) => s case Other(v) => toString(v);
      texts := texts + [t];
    }
    return PreviewResult(texts, texts);
  }
}
