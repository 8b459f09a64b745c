/** The retrieval service's document type and its tolerant reader for media URLs in metadata. */
module RagService {
  import opened Common
  import opened Json

  /** A retrieved document: `page_content` and its `metadata` dict. */
  datatype Doc = Doc(content: string, metadata: map<string, Json>)

  /** `metadata.get(key) or metadata.get(key.lower())`: the lower-case spelling is consulted only
      when the value under `key` is missing or falsy. */
  function RawUrlValue(md: map<string, Json>, key: string): (v: Json)
    ensures Truthy(Get(md, key)) ==> key in md && v == md[key]
    ensures !Truthy(Get(md, key)) ==> v == Get(md, Lowered(key))
  {
    var first := Get(md, key);
    if Truthy(first) then first else Get(md, Lowered(key))
  }

  /** `val[2:-2]`, with Python's clamping for strings shorter than four characters. */
  function UnwrapListString(s: string): (r: string)
    ensures |r| <= |s|
    ensures |s| >= 4 ==> r == s[2..|s| - 2]
  {
    if |s| >= 4 then s[2..|s| - 2] else ""
  }

  /** Whether a string value is an old-format list rendering `['…']`. */
  predicate LooksLikeListString(s: string) {
    StartsWith(s, "['") && EndsWith(s, "']")
  }

  /** `safe_get_url(metadata, key)`: total on every metadata dict, and any URL it returns holds "http". */
  function SafeGetUrl(md: map<string, Json>, key: string): (r: Option<string>)
    ensures r.Some? ==> Contains(r.value, "http")
    ensures !Truthy(RawUrlValue(md, key)) ==> r == None
    ensures !(RawUrlValue(md, key).JArr? || RawUrlValue(md, key).JStr?) ==> r == None
    ensures RawUrlValue(md, key).JArr? && r.Some? ==>
              RawUrlValue(md, key).items[0] == JStr(r.value)
    ensures RawUrlValue(md, key).JArr? && RawUrlValue(md, key).items != []
            && RawUrlValue(md, key).items[0].JStr? && Contains(RawUrlValue(md, key).items[0].s, "http")
            ==> r == Some(RawUrlValue(md, key).items[0].s)
    ensures RawUrlValue(md, key).JStr? && LooksLikeListString(RawUrlValue(md, key).s) ==>
              r == (var u := UnwrapListString(RawUrlValue(md, key).s); if Contains(u, "http") then Some(u) else None)
    ensures RawUrlValue(md, key).JStr? && !LooksLikeListString(RawUrlValue(md, key).s) ==>
              r == (var u := RawUrlValue(md, key).s; if Contains(u, "http") then Some(u) else None)
  {
    var v := RawUrlValue(md, key);
    if !Truthy(v) then None
    else match v
      case JArr(items) =>
        if items != [] && items[0].JStr? && Contains(items[0].s, "http") then Some(items[0].s) else None
      case JStr(s) =>
        var u := if LooksLikeListString(s) then UnwrapListString(s) else s;
        if Contains(u, "http") then Some(u) else None
      case _ => None
  }

  /** A bare URL string and a one-element list holding it both yield the URL. */
  lemma SafeGetUrlPlainAndList()
    ensures SafeGetUrl(map["Video" := JStr("http://x/a.mp4")], "Video") == Some("http://x/a.mp4")
    ensures SafeGetUrl(map["Video" := JArr([JStr("http://x/a.mp4")])], "Video") == Some("http://x/a.mp4")
  {
    var url := "http://x/a.mp4";
    assert StartsWith(url, "http");
    assert RawUrlValue(map["Video" := JStr(url)], "Video") == JStr(url);
    assert !LooksLikeListString(url) by { assert url[..2][0] == url[0] == 'h'; }
    assert RawUrlValue(map["Video" := JArr([JStr(url)])], "Video") == JArr([JStr(url)]);
  }

  /** An old-format list string `['url']` is unwrapped before the check. */
  lemma SafeGetUrlOldFormat(url: string)
    requires StartsWith(url, "http")
    ensures SafeGetUrl(map["Image" := JStr("['" + url + "']")], "Image") == Some(url)
  {
    var s := "['" + url + "']";
    assert RawUrlValue(map["Image" := JStr(s)], "Image") == JStr(s);
    assert LooksLikeListString(s) by {
      assert s[..2] == "['";
      assert s[|s| - 2..] == "']";
    }
    assert UnwrapListString(s) == url by {
      assert s[2..|s| - 2] == url;
    }
  }

  /** An empty string under `key` falls back to the lower-case key; with nothing there the
      result is None, and a number never yields a URL. */
  lemma SafeGetUrlFallbacks()
    ensures SafeGetUrl(map["Image" := JStr("")], "Image") == None
    ensures SafeGetUrl(map["Image" := JStr(""), "image" := JStr("http://x/b.png")], "Image") == Some("http://x/b.png")
    ensures SafeGetUrl(map["Image" := JNum(7)], "Image") == None
  {
    var url := "http://x/b.png";
    assert Lowered("Image") == "image";
    assert "image" !in map["Image" := JStr("")];
    assert RawUrlValue(map["Image" := JStr(""), "image" := JStr(url)], "Image") == JStr(url);
    assert StartsWith(url, "http");
    assert !LooksLikeListString(url) by { assert url[..2][0] == url[0] == 'h'; }
  }
}
