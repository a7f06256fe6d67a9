/** `URLSearchParams.toString()` over ordered key/value pairs, as the CMS client and the video
    player use it: `key=value` pairs joined by `&`. Percent-encoding is not part of this model. */
module SearchParams {
  function Serialize(pairs: seq<(string, string)>): string {
    if pairs == [] then ""
    else
      var last := pairs[|pairs| - 1].0 + "=" + pairs[|pairs| - 1].1;
      if |pairs| == 1 then last else Serialize(pairs[..|pairs| - 1]) + "&" + last
  }

  lemma {:induction false} SerializeEmpty(pairs: seq<(string, string)>)
    ensures Serialize(pairs) == "" <==> pairs == []
  {
    if pairs != [] {
      var last := pairs[|pairs| - 1].0 + "=" + pairs[|pairs| - 1].1;
      assert last[|pairs[|pairs| - 1].0|] == '=';
    }
  }

  /** A character other than `=` and `&` appears in the serialization only if some key or value
      holds it. */
  lemma {:induction false} SerializeAvoids(pairs: seq<(string, string)>, c: char)
    requires c != '=' && c != '&'
    requires forall i :: 0 <= i < |pairs| ==> c !in pairs[i].0 && c !in pairs[i].1
    ensures c !in Serialize(pairs)
  {
    if pairs != [] {
      var init := pairs[..|pairs| - 1];
      var last := pairs[|pairs| - 1].0 + "=" + pairs[|pairs| - 1].1;
      assert c !in last;
      if |pairs| > 1 {
        SerializeAvoids(init, c);
      }
    }
  }
}
