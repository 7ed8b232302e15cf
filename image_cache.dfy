/**
 * The image cache of `loadImage` (lib/utils.ts, and the same logic in
 * js/canvas.js): a map from URL to loaded image. A URL already in the map is
 * answered from it without loading; otherwise the image is loaded, stored
 * under its URL on success, and a failed load leaves the map unchanged and
 * rejects. The browser's image loading is the parameter `fetch`, `None`
 * standing for the `onerror` rejection.
 */
module ImageCache {
  import opened Wrappers
  import opened Draw

  type Loader = string -> Option<Image>

  /** One call of `loadImage`: its outcome and the cache after it. */
  function CacheLoad(entries: map<string, Image>, url: string, fetch: Loader): (r: (Option<Image>, map<string, Image>))
    ensures url in entries ==> r == (Some(entries[url]), entries)
    ensures url !in entries ==> r.0 == fetch(url)
    ensures r.0.Some? <==> url in r.1
    ensures r.0.Some? ==> r.1[url] == r.0.value
    ensures entries.Keys <= r.1.Keys && r.1.Keys <= entries.Keys + {url}
    ensures forall u :: u in entries ==> u in r.1 && r.1[u] == entries[u]
  {
    if url in entries then (Some(entries[url]), entries)
    else
      match fetch(url)
      case None => (None, entries)
      case Some(img) => (Some(img), entries[url := img])
  }

  /** Once a load has succeeded, later loads of the same URL give the same
      image whatever the loader would now do. */
  lemma LoadIsStable(entries: map<string, Image>, url: string, first: Loader, later: Loader)
    requires CacheLoad(entries, url, first).0.Some?
    ensures var (img, after) := CacheLoad(entries, url, first);
            CacheLoad(after, url, later) == (img, after)
  {
  }

  /** A failed load changes nothing, so the next load of that URL tries again. */
  lemma FailureRetries(entries: map<string, Image>, url: string, first: Loader, later: Loader)
    requires CacheLoad(entries, url, first).0.None?
    ensures CacheLoad(entries, url, first).1 == entries
    ensures CacheLoad(CacheLoad(entries, url, first).1, url, later).0 == later(url)
  {
  }

  /** Loads of a sequence of URLs, one after another. */
  function LoadAll(entries: map<string, Image>, urls: seq<string>, fetch: Loader): map<string, Image>
    decreases |urls|
  {
    if urls == [] then entries else LoadAll(CacheLoad(entries, urls[0], fetch).1, urls[1..], fetch)
  }

  /** The cache never forgets: after any series of loads every earlier entry
      is still there, unchanged, and only loaded URLs were added. */
  lemma {:induction false} LoadAllKeeps(entries: map<string, Image>, urls: seq<string>, fetch: Loader)
    ensures forall u :: u in entries ==> u in LoadAll(entries, urls, fetch) && LoadAll(entries, urls, fetch)[u] == entries[u]
    ensures forall u :: u in LoadAll(entries, urls, fetch) ==> u in entries || u in urls
    decreases |urls|
  {
    if urls != [] {
      var next := CacheLoad(entries, urls[0], fetch).1;
      LoadAllKeeps(next, urls[1..], fetch);
      forall u | u in LoadAll(entries, urls, fetch)
        ensures u in entries || u in urls
      {
        if u !in next {
        } else if u !in entries {
          assert u == urls[0];
        }
      }
    }
  }

  /** The cache of loaded images (`imageCache`). */
  class Cache {
    var entries: map<string, Image>

    constructor ()
      ensures entries == map[]
    {
      entries := map[];
    }

    /** `loadImage(url)`. */
    method Load(url: string, fetch: Loader) returns (img: Option<Image>)
      modifies this
      ensures (img, entries) == CacheLoad(old(entries), url, fetch)
    {
      if url in entries {
        img := Some(entries[url]);
      } else {
        img := fetch(url);
        if img.Some? {
          entries := entries[url := img.value];
        }
      }
    }
  }
}
