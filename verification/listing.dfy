/** The two views of Cloudflare: the coordinator's bulk map and the worker's search by
    hostname, both read from a paginated listing. */
module Listing {
  import opened Types

  function Flatten(pages: seq<seq<Record>>): seq<Record> {
    if pages == [] then [] else pages[0] + Flatten(pages[1..])
  }

  // The first record of exactly this hostname.
  function FirstMatch(listing: seq<Record>, hostname: string): Option<Record> {
    if listing == [] then None
    else if listing[0].hostname == hostname then Some(listing[0])
    else FirstMatch(listing[1..], hostname)
  }

  // The map keyed by hostname; a later record of the same hostname replaces an earlier one.
  function Index(listing: seq<Record>): map<string, Record> {
    if listing == [] then map[]
    else Index(listing[..|listing| - 1])[listing[|listing| - 1].hostname := listing[|listing| - 1]]
  }

  // No hostname is listed twice.
  ghost predicate DuplicateFree(listing: seq<Record>) {
    forall i, j :: 0 <= i < j < |listing| ==> listing[i].hostname != listing[j].hostname
  }

  lemma {:induction false} FlattenAppend(pages: seq<seq<Record>>, page: seq<Record>)
    ensures Flatten(pages + [page]) == Flatten(pages) + page
  {
    if pages == [] {
      assert [page][1..] == [];
    } else {
      FlattenAppend(pages[1..], page);
      assert (pages + [page])[1..] == pages[1..] + [page];
    }
  }

  // FirstMatch is a listed record of the hostname, and is absent only when there is none.
  lemma {:induction false} FirstMatchIsFirst(listing: seq<Record>, hostname: string)
    ensures var found := FirstMatch(listing, hostname);
            && (found.None? <==> forall r :: r in listing ==> r.hostname != hostname)
            && (found.Some? ==>
                  exists i :: 0 <= i < |listing| && listing[i] == found.value && listing[i].hostname == hostname
                              && forall j :: 0 <= j < i ==> listing[j].hostname != hostname)
  {
    if listing == [] {
    } else if listing[0].hostname == hostname {
      assert listing[0] in listing;
    } else {
      FirstMatchIsFirst(listing[1..], hostname);
      var tail := FirstMatch(listing[1..], hostname);
      if tail.Some? {
        var i :| 0 <= i < |listing[1..]| && listing[1..][i] == tail.value && listing[1..][i].hostname == hostname
                 && forall j :: 0 <= j < i ==> listing[1..][j].hostname != hostname;
        assert listing[i + 1] == tail.value;
        forall j | 0 <= j < i + 1 ensures listing[j].hostname != hostname {
          if j > 0 {
            assert listing[1..][j - 1] == listing[j];
          }
        }
      } else {
        forall r | r in listing ensures r.hostname != hostname {
          if r != listing[0] {
            assert r in listing[1..];
          }
        }
      }
    }
  }

  // The index holds exactly the last record of each listed hostname.
  lemma {:induction false} IndexIsLast(listing: seq<Record>, hostname: string)
    ensures var index := Index(listing);
            && (hostname in index <==> exists r :: r in listing && r.hostname == hostname)
            && (hostname in index ==>
                  exists i :: 0 <= i < |listing| && listing[i] == index[hostname] && listing[i].hostname == hostname
                              && forall j :: i < j < |listing| ==> listing[j].hostname != hostname)
  {
    if listing != [] {
      var n := |listing| - 1;
      var init := listing[..n];
      IndexIsLast(init, hostname);
      assert listing == init + [listing[n]];
      if listing[n].hostname != hostname && hostname in Index(init) {
        var i :| 0 <= i < |init| && init[i] == Index(init)[hostname] && init[i].hostname == hostname
                 && forall j :: i < j < |init| ==> init[j].hostname != hostname;
        assert listing[i] == Index(listing)[hostname];
        forall j | i < j < |listing| ensures listing[j].hostname != hostname {
          if j < n {
            assert init[j] == listing[j];
          }
        }
      }
    }
  }

  /** However a duplicate-free listing is split into pages, looking a hostname up in the
      bulk map gives what searching for it gives. */
  lemma IndexAgreesWithSearch(pages: seq<seq<Record>>, hostname: string)
    requires DuplicateFree(Flatten(pages))
    ensures var index, found := Index(Flatten(pages)), FirstMatch(Flatten(pages), hostname);
            && (hostname in index <==> found.Some?)
            && (hostname in index ==> index[hostname] == found.value)
  {
    var listing := Flatten(pages);
    FirstMatchIsFirst(listing, hostname);
    IndexIsLast(listing, hostname);
    if hostname in Index(listing) {
      var r :| r in listing && r.hostname == hostname;
      var found := FirstMatch(listing, hostname);
      var i :| 0 <= i < |listing| && listing[i] == Index(listing)[hostname] && listing[i].hostname == hostname
               && forall j :: i < j < |listing| ==> listing[j].hostname != hostname;
      var k :| 0 <= k < |listing| && listing[k] == found.value && listing[k].hostname == hostname
               && forall j :: 0 <= j < k ==> listing[j].hostname != hostname;
      assert i == k;
    }
  }

  /** With a duplicate the two views differ: the search answers the first record, the map
      the last. */
  lemma DuplicatesSplitTheViews(first: Record, second: Record)
    requires first.hostname == second.hostname && first != second
    ensures FirstMatch([first, second], first.hostname) == Some(first)
    ensures first.hostname in Index([first, second]) && Index([first, second])[first.hostname] == second
  {
  }

  // One step of the search within a page.
  lemma SearchOne(page: seq<Record>, i: nat, rest: seq<Record>, hostname: string)
    requires i < |page|
    ensures FirstMatch(page[i..] + rest, hostname)
            == if page[i].hostname == hostname then Some(page[i]) else FirstMatch(page[i + 1..] + rest, hostname)
  {
    assert (page[i..] + rest)[0] == page[i] && (page[i..] + rest)[1..] == page[i + 1..] + rest;
  }

  // One more record in the map.
  lemma IndexAppend(listing: seq<Record>, last: Record)
    ensures Index(listing + [last]) == Index(listing)[last.hostname := last]
  {
    assert (listing + [last])[..|listing|] == listing;
  }

  // ---- The pagers ----

  /** findByHostname: stops at the first match; otherwise reports whether the pager failed.
      pages are the pages that arrived, failed says that the fetch of the next one failed. */
  method FindByHostname(pages: seq<seq<Record>>, failed: bool, hostname: string)
    returns (found: Option<Record>, err: bool)
    ensures found == FirstMatch(Flatten(pages), hostname)
    ensures err <==> failed && found.None?
  {
    ghost var seen: seq<Record> := [];
    for p := 0 to |pages|
      invariant Flatten(pages) == seen + Flatten(pages[p..])
      invariant FirstMatch(Flatten(pages), hostname) == FirstMatch(Flatten(pages[p..]), hostname)
    {
      var page := pages[p];
      assert Flatten(pages[p..]) == page + Flatten(pages[p + 1..]) by {
        assert pages[p..][1..] == pages[p + 1..];
      }
      ghost var rest := Flatten(pages[p + 1..]);
      for i := 0 to |page|
        invariant FirstMatch(Flatten(pages), hostname) == FirstMatch(page[i..] + rest, hostname)
      {
        SearchOne(page, i, rest, hostname);
        if page[i].hostname == hostname {
          return Some(page[i]), false;
        }
      }
      assert page[|page|..] + rest == rest;
      seen := seen + page;
    }
    assert pages[|pages|..] == [];
    return None, failed;
  }

  /** listCloudflareHostnames: the whole map, and whether a page failed. */
  method ListCloudflareHostnames(pages: seq<seq<Record>>, failed: bool)
    returns (result: map<string, Record>, err: bool)
    ensures result == Index(Flatten(pages))
    ensures err == failed
  {
    result := map[];
    for p := 0 to |pages|
      invariant result == Index(Flatten(pages[..p]))
    {
      var page := pages[p];
      ghost var before := Flatten(pages[..p]);
      assert before + page[..0] == before;
      for i := 0 to |page|
        invariant result == Index(before + page[..i])
      {
        IndexAppend(before + page[..i], page[i]);
        assert before + page[..i] + [page[i]] == before + page[..i + 1];
        result := result[page[i].hostname := page[i]];
      }
      FlattenAppend(pages[..p], page);
      assert pages[..p] + [page] == pages[..p + 1];
      assert page[..|page|] == page;
    }
    assert pages[..|pages|] == pages;
    err := failed;
  }
}
