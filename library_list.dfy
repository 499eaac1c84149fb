/**
  web_ui/src/lib/state/voiceprint-provider.tsx: the list of libraries the
  web UI keeps, and the updaters the provider hands to `setLibraries`.
 */
module LibraryList {
  import opened Wrappers

  /** A library as the REST API describes it: its id and its other properties. */
  datatype Library = Library(id: string, properties: map<string, string>)

  /** `addLibrary`: `[...prev, library]`. */
  function AddLibrary(prev: seq<Library>, library: Library): (r: seq<Library>)
    ensures |r| == |prev| + 1 && r[..|prev|] == prev && r[|prev|] == library
  {
    prev + [library]
  }

  /** `updateLibrary`: the updater is applied to each element with the id; the others are kept. */
  function UpdateLibrary(state: seq<Library>, id: string, updater: Library -> Library): seq<Library> {
    seq(|state|, i requires 0 <= i < |state| => if state[i].id == id then updater(state[i]) else state[i])
  }

  /** `removeLibrary`: `prev.filter((lib) => lib.id !== id)`. */
  function RemoveLibrary(prev: seq<Library>, id: string): seq<Library> {
    if prev == [] then []
    else RemoveLibrary(prev[..|prev| - 1], id) + (if prev[|prev| - 1].id == id then [] else [prev[|prev| - 1]])
  }

  /** The fetch effect: the fetched data replaces the list only after a finished, successful fetch that returned data. */
  function AfterFetch(current: seq<Library>, isSuccess: bool, isFetching: bool, data: Option<seq<Library>>): seq<Library> {
    if isSuccess && !isFetching && data.Some? then data.value else current
  }

  /** Same length and order; exactly the elements with the id are replaced by their update. */
  lemma UpdateLibrarySpec(state: seq<Library>, id: string, updater: Library -> Library)
    ensures |UpdateLibrary(state, id, updater)| == |state|
    ensures forall i :: 0 <= i < |state| && state[i].id == id ==> UpdateLibrary(state, id, updater)[i] == updater(state[i])
    ensures forall i :: 0 <= i < |state| && state[i].id != id ==> UpdateLibrary(state, id, updater)[i] == state[i]
    ensures (forall i :: 0 <= i < |state| ==> state[i].id != id) ==> UpdateLibrary(state, id, updater) == state
  {
  }

  /** The filter keeps exactly the elements without the id, and never lengthens the list. */
  lemma {:induction false} RemoveLibraryMembers(prev: seq<Library>, id: string)
    ensures forall l :: l in RemoveLibrary(prev, id) <==> l in prev && l.id != id
    ensures |RemoveLibrary(prev, id)| <= |prev|
  {
    if prev != [] {
      var init, last := prev[..|prev| - 1], prev[|prev| - 1];
      RemoveLibraryMembers(init, id);
      assert prev == init + [last];
    }
  }

  /** Removing the same id twice is removing it once. */
  lemma {:induction false} RemoveLibraryIdempotent(prev: seq<Library>, id: string)
    ensures RemoveLibrary(RemoveLibrary(prev, id), id) == RemoveLibrary(prev, id)
  {
    if prev != [] {
      var init, last := prev[..|prev| - 1], prev[|prev| - 1];
      RemoveLibraryIdempotent(init, id);
      var r := RemoveLibrary(prev, id);
      if last.id != id {
        assert r == RemoveLibrary(init, id) + [last];
        assert r[..|r| - 1] == RemoveLibrary(init, id) && r[|r| - 1] == last;
        assert RemoveLibrary(r, id) == RemoveLibrary(RemoveLibrary(init, id), id) + [last];
      } else {
        assert RemoveLibrary(init, id) + [] == RemoveLibrary(init, id);
        assert r == RemoveLibrary(init, id);
      }
    }
  }

  /** Removal distributes over concatenation: the kept elements stay in their order. */
  lemma {:induction false} RemoveLibraryAppend(a: seq<Library>, b: seq<Library>, id: string)
    ensures RemoveLibrary(a + b, id) == RemoveLibrary(a, id) + RemoveLibrary(b, id)
  {
    if b != [] {
      var init, last := b[..|b| - 1], b[|b| - 1];
      RemoveLibraryAppend(a, init, id);
      assert (a + b)[..|a + b| - 1] == a + init;
    } else {
      assert a + b == a;
    }
  }

  /** The fetched list replaces the current one exactly under the three conditions. */
  lemma AfterFetchSpec(current: seq<Library>, isSuccess: bool, isFetching: bool, data: Option<seq<Library>>)
    ensures isSuccess && !isFetching && data.Some? ==> AfterFetch(current, isSuccess, isFetching, data) == data.value
    ensures !(isSuccess && !isFetching && data.Some?) ==> AfterFetch(current, isSuccess, isFetching, data) == current
  {
  }
}
