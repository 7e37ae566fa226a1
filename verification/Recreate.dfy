/**
 What a recreate carries over: the difference against the old image, laid over
 whatever image the container is created from.
 */
module Recreate {
  import opened Values

  type Dict = map<string, string>

  // ---- KEY=VALUE lists -----------------------------------------------------------------------

  /** The position of the first '=', or the length. */
  function Equals(s: string): (n: nat)
    ensures n <= |s| && (n < |s| ==> s[n] == '=') && forall i :: 0 <= i < n ==> s[i] != '='
  {
    if s == "" || s[0] == '=' then 0
    else
      var n := Equals(s[1..]);
      assert forall i :: 0 < i < n + 1 ==> s[i] == s[1..][i - 1];
      n + 1
  }

  /** str.partition("="), without the separator. */
  function Partition(s: string): (string, string) {
    var n := Equals(s);
    (s[..n], if n < |s| then s[n + 1..] else "")
  }

  /** The mapping a list means; a later entry wins. */
  function Meaning(list: seq<string>): Dict {
    if list == [] then map[]
    else
      var kv := Partition(list[|list| - 1]);
      Meaning(list[..|list| - 1])[kv.0 := kv.1]
  }

  /** _kv_list_to_dict */
  method KvListToDict(list: seq<string>) returns (out: Dict)
    ensures out == Meaning(list)
    ensures forall k :: k in out ==> '=' !in k
  {
    out := map[];
    for i := 0 to |list|
      invariant out == Meaning(list[..i])
      invariant forall k :: k in out ==> '=' !in k
    {
      assert list[..i + 1][..i] == list[..i];
      var kv := Partition(list[i]);
      out := out[kv.0 := kv.1];
    }
    assert list[..|list|] == list;
  }

  /** The `-e` or `--label` arguments for the entries of a mapping. */
  function Arguments(entries: seq<(string, string)>): (args: seq<string>)
    ensures |args| == |entries|
  {
    if entries == [] then []
    else
      var last := entries[|entries| - 1];
      Arguments(entries[..|entries| - 1]) + [last.0 + "=" + last.1]
  }

  function Entries(entries: seq<(string, string)>): Dict {
    if entries == [] then map[]
    else
      var last := entries[|entries| - 1];
      Entries(entries[..|entries| - 1])[last.0 := last.1]
  }

  lemma PartitionOf(k: string, v: string)
    ensures '=' !in k ==> Partition(k + "=" + v) == (k, v)
    ensures '=' !in Partition(k + "=" + v).0
  {
    var s := k + "=" + v;
    if '=' !in k {
      var n := Equals(s);
      assert s[|k|] == '=';
      assert forall i :: 0 <= i < |k| ==> s[i] == k[i];
      assert s[..|k|] == k && s[|k| + 1..] == v;
    }
  }

  lemma ArgumentsEnd(entries: seq<(string, string)>)
    requires entries != []
    ensures var front, last := entries[..|entries| - 1], entries[|entries| - 1];
      var kv := Partition(last.0 + "=" + last.1);
      Meaning(Arguments(entries)) == Meaning(Arguments(front))[kv.0 := kv.1]
  {
    var args := Arguments(entries);
    assert args[..|args| - 1] == Arguments(entries[..|entries| - 1]);
  }

  lemma {:induction false} KeysAreCut(entries: seq<(string, string)>)
    ensures forall k :: k in Meaning(Arguments(entries)) ==> '=' !in k
    ensures forall e :: e in entries ==> e.0 in Entries(entries)
  {
    hide Meaning, Arguments, Partition;
    NoArguments();
    if entries != [] {
      var front, last := entries[..|entries| - 1], entries[|entries| - 1];
      KeysAreCut(front);
      ArgumentsEnd(entries);
      PartitionOf(last.0, last.1);
      assert entries == front + [last];
    }
  }

  lemma NoArguments()
    ensures Meaning(Arguments([])) == map[]
  {
  }

  lemma {:induction false} CutKeysRoundTrip(entries: seq<(string, string)>)
    requires forall e :: e in entries ==> '=' !in e.0
    ensures Meaning(Arguments(entries)) == Entries(entries)
  {
    hide Meaning, Arguments, Partition;
    NoArguments();
    if entries != [] {
      var front, last := entries[..|entries| - 1], entries[|entries| - 1];
      assert last in entries && forall e :: e in front ==> e in entries;
      CutKeysRoundTrip(front);
      ArgumentsEnd(entries);
      PartitionOf(last.0, last.1);
    }
  }

  /** Docker reads the arguments back as the mapping they were written from exactly when no key holds an '=':
      never a question for environment variables, whose keys were cut at one, but one for labels. */
  lemma ArgumentsRoundTripIff(entries: seq<(string, string)>)
    ensures Meaning(Arguments(entries)) == Entries(entries) <==> forall e :: e in entries ==> '=' !in e.0
  {
    hide Meaning, Arguments, Entries;
    KeysAreCut(entries);
    if forall e :: e in entries ==> '=' !in e.0 {
      CutKeysRoundTrip(entries);
    }
  }

  // ---- The delta -----------------------------------------------------------------------------

  /** _dict_delta, and _env_delta on what the lists mean: what compose put on top of the image. */
  function Delta(container: Dict, image: Dict): Dict {
    map k | k in container && !(k in image && image[k] == container[k]) :: container[k]
  }

  /** `docker create` from an image with the delta as arguments. */
  function Create(image: Dict, delta: Dict): Dict {
    image + delta
  }

  /** A rollback, which puts the captured configuration back on the image it was captured on, is a round trip
      exactly when the container still had every key of that image. */
  lemma RollbackIff(container: Dict, image: Dict)
    ensures Create(image, Delta(container, image)) == container <==> image.Keys <= container.Keys
  {
    var back := Create(image, Delta(container, image));
    if image.Keys <= container.Keys {
      forall k ensures k in back <==> k in container {
      }
    } else {
      var k :| k in image.Keys && k !in container.Keys;
      assert k in back;
    }
  }

  /** On a new image each key keeps its value if compose had set it, and takes the new default if the old image
      had baked it in: a default the new image changes is never pinned to the old one, and one it drops goes. */
  lemma OnNewImage(container: Dict, image: Dict, newImage: Dict, k: string)
    requires k in container
    ensures var updated := Create(newImage, Delta(container, image));
      if k in image && image[k] == container[k]
      then Lookup(updated, k) == Lookup(newImage, k)
      else Lookup(updated, k) == Some(container[k])
  {
  }

  function Lookup(d: Dict, k: string): Option<string> {
    if k in d then Some(d[k]) else None
  }

  // ---- Chains of updates ---------------------------------------------------------------------

  /** The container after updates through the images, from one created on `image`. */
  function Chain(container: Dict, image: Dict, images: seq<Dict>): Dict
    decreases |images|
  {
    if images == [] then container
    else Chain(Create(images[0], Delta(container, image)), images[0], images[1..])
  }

  function LastImage(image: Dict, images: seq<Dict>): Dict {
    if images == [] then image else images[|images| - 1]
  }

  /** What an update does to the overlay: it loses what the new image happens to bake in, nothing else. */
  lemma OverlayAfterOne(overlay: Dict, image: Dict)
    ensures Delta(Create(image, overlay), image) ==
      map k | k in overlay && !(k in image && image[k] == overlay[k]) :: overlay[k]
  {
  }

  /** Over any chain of updates an entry of the overlay is lost exactly if some image on the way baked in its
      very value; every other entry stands, and the container is the last image under what was left before. */
  lemma {:induction false} OverlayAfterChain(container: Dict, image: Dict, images: seq<Dict>)
    ensures var overlay := Delta(container, image); var end := Chain(container, image, images);
      forall k, v :: Lookup(Delta(end, LastImage(image, images)), k) == Some(v) <==>
        Lookup(overlay, k) == Some(v) && forall i :: 0 <= i < |images| ==> Lookup(images[i], k) != Some(v)
    decreases |images|
  {
    if images != [] {
      var overlay := Delta(container, image);
      var next := Create(images[0], overlay);
      OverlayAfterOne(overlay, images[0]);
      OverlayAfterChain(next, images[0], images[1..]);
      assert LastImage(images[0], images[1..]) == LastImage(image, images);
      assert forall i :: 0 < i < |images| ==> images[i] == images[1..][i - 1];
      forall k, v
        ensures Lookup(Delta(next, images[0]), k) == Some(v) <==>
          Lookup(overlay, k) == Some(v) && Lookup(images[0], k) != Some(v)
      {
      }
    }
  }

  /** An entry that no image bakes in is on the container after every chain; one that an image did bake in ends
      with whatever the last image says. */
  lemma EntryAfterChain(container: Dict, image: Dict, images: seq<Dict>, k: string, v: string)
    requires Lookup(Delta(container, image), k) == Some(v) && images != []
    ensures (forall i :: 0 <= i < |images| ==> Lookup(images[i], k) != Some(v)) ==>
      Lookup(Chain(container, image, images), k) == Some(v)
    ensures (exists i :: 0 <= i < |images| && Lookup(images[i], k) == Some(v)) ==>
      Lookup(Chain(container, image, images), k) == Lookup(LastImage(image, images), k)
  {
    hide Chain;
    OverlayAfterChain(container, image, images);
    ChainEndsOnLast(container, image, images);
  }

  /** The container at the end is its last image under its overlay. */
  lemma {:induction false} ChainEndsOnLast(container: Dict, image: Dict, images: seq<Dict>)
    requires images != []
    ensures var end, last := Chain(container, image, images), LastImage(image, images);
      end == Create(last, Delta(end, last)) && last.Keys <= end.Keys
    decreases |images|
  {
    var next := Create(images[0], Delta(container, image));
    if |images| == 1 {
      assert Chain(container, image, images) == Chain(next, images[0], []);
      RollbackIff(next, images[0]);
    } else {
      ChainEndsOnLast(next, images[0], images[1..]);
      assert LastImage(images[0], images[1..]) == LastImage(image, images);
    }
  }

  // ---- Entrypoint, command and the scalar fields -----------------------------------------------

  datatype Command = Command(entrypoint: seq<string>, cmd: seq<string>)

  /** _entrypoint_override */
  function EntrypointOverride(container: seq<string>, image: seq<string>): Option<string> {
    if container == image || container == [] then None else Some(container[0])
  }

  /** _cmd_override */
  function CmdOverride(container: seq<string>, image: seq<string>): seq<string> {
    if container == image then [] else container
  }

  /** `docker create [--entrypoint e] IMAGE [cmd...]`: an entrypoint clears the image's own command. */
  function CreateCommand(image: Command, entrypoint: Option<string>, cmd: seq<string>): Command {
    Command(if entrypoint.Some? then [entrypoint.value] else image.entrypoint,
            if cmd != [] then cmd else if entrypoint.Some? then [] else image.cmd)
  }

  function Recreated(container: Command, was: Command, image: Command): Command {
    CreateCommand(image, EntrypointOverride(container.entrypoint, was.entrypoint), CmdOverride(container.cmd, was.cmd))
  }

  /** When a rollback gives the container its command line back: an override can be no longer than one word, an
      emptied one is lost unless the other override empties it, and a command equal to the image's is lost
      beside an entrypoint override. */
  lemma CommandRollbackIff(container: Command, image: Command)
    ensures Recreated(container, image, image) == container <==>
      && (container.entrypoint == image.entrypoint || |container.entrypoint| == 1)
      && (if container.cmd == [] then image.cmd == [] || container.entrypoint != image.entrypoint
          else container.cmd != image.cmd || container.entrypoint == image.entrypoint)
  {
    if |container.entrypoint| == 1 {
      assert container.entrypoint == [container.entrypoint[0]];
    }
  }

  /** _scalar_delta_args, one field. */
  function ScalarOverride(container: string, image: string): Option<string> {
    if container != "" && container != image then Some(container) else None
  }

  function CreateScalar(image: string, override: Option<string>): string {
    if override.Some? then override.value else image
  }

  /** A field set by compose survives every update; one that was emptied, or that equalled the old image's,
      follows the new image. */
  lemma ScalarOnImage(container: string, was: string, image: string)
    ensures CreateScalar(image, ScalarOverride(container, was)) == container <==>
      image == container || (container != "" && container != was)
    ensures CreateScalar(was, ScalarOverride(container, was)) == container <==> container != "" || was == ""
  {
  }
}
