// How projects, threads and shared links name themselves.

module MainModels {
  import opened Wrappers
  import opened PyValues
  import ApiUtils

  function Min(a: int, b: int): int {
    if a < b then a else b
  }

  /** `Project.get_partial_key`: the first eight characters of the key, an
    * ellipsis and its last five (the two parts overlap on a short key);
    * `None` for an empty key. */
  function PartialKey(key: string): (r: Option<string>)
    ensures r.None? <==> key == ""
    ensures r.Some? ==>
      var head := Min(|key|, 8);
      var tail := Min(|key|, 5);
      |r.value| == head + 3 + tail &&
      r.value[..head] == key[..head] &&
      r.value[head..head + 3] == "..." &&
      r.value[head + 3..] == key[|key| - tail..]
  {
    if key == "" then None
    else
      var s := SliceTo(key, 8) + "..." + SliceFrom(key, -5);
      assert s[..Min(|key|, 8)] == SliceTo(key, 8);
      Some(s)
  }

  /** A key longer than thirteen characters shows as sixteen: its first
    * eight, the ellipsis and its last five, so a key longer than sixteen is
    * never shown whole. */
  lemma PartialKeyHidesMiddle(key: string)
    requires |key| > 13
    ensures PartialKey(key).Some? && |PartialKey(key).value| == 16
    ensures |key| > 16 ==> PartialKey(key).value != key
    ensures PartialKey(key).value == key[..8] + "..." + key[|key| - 5..]
  {
    var r := PartialKey(key).value;
    assert r == r[..8] + r[8..11] + r[11..];
  }

  /** `Project.__str__`: the name when it is set and not empty, else the
    * partial key. When the key is empty too the result is `None`, which is
    * not a label: `str(project)` then raises `TypeError`, since `__str__`
    * must return a string. */
  function ProjectLabel(p: ApiUtils.ProjectRow): (r: Option<string>)
    ensures p.name.Some? && p.name.value != "" ==> r == p.name
    ensures !(p.name.Some? && p.name.value != "") ==> r == PartialKey(p.key)
    ensures r.None? <==> (p.name.None? || p.name.value == "") && p.key == ""
  {
    OrStr(p.name, PartialKey(p.key))
  }

  /** A thread: its own uuid (`uuidText` is its canonical text) and the
    * OpenAI thread id, once known. */
  datatype ThreadRow = ThreadRow(uuidText: string, openaiId: Option<string>, createdAt: Option<int>, metadata: Py)

  /** `Thread.__str__`: the OpenAI id when set and not empty, else the uuid. */
  function ThreadLabel(t: ThreadRow): (r: string)
    ensures t.openaiId.Some? && t.openaiId.value != "" ==> r == t.openaiId.value
    ensures !(t.openaiId.Some? && t.openaiId.value != "") ==> r == t.uuidText
  {
    if t.openaiId.Some? && t.openaiId.value != "" then t.openaiId.value else t.uuidText
  }

  /** `SharedLink.__str__`: names the assistant the link shares. */
  function SharedLinkLabel(l: ApiUtils.SharedLinkRow): (r: string)
    ensures StartsWith(r, "Shared link for ") && EndsWith(r, l.assistantId)
    ensures |r| == 16 + |l.assistantId|
  {
    var r := "Shared link for " + l.assistantId;
    assert r[..16] == "Shared link for ";
    assert r[|r| - |l.assistantId|..] == l.assistantId;
    r
  }
}
