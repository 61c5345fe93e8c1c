/** The browser's File and FormData values as the form and the route see them. */
module Multipart {
  import opened Text

  newtype byte = x: int | 0 <= x < 256

  /** A selected file: its name, MIME type, contents and, for a file picked from a folder,
      its path relative to that folder ("" otherwise). Its size is its length in bytes. */
  datatype File = File(name: string, mimeType: string, data: seq<byte>, relativePath: string)
  {
    function Size(): nat { |data| }
  }

  /** A FormData entry holds either a string or a file. */
  datatype EntryValue = StringValue(text: string) | FileValue(file: File)

  /** FormData keeps its entries in the order they were appended; one key may repeat. */
  type FormData = seq<(string, EntryValue)>

  /** Entry `i` is the first one under `key`. */
  predicate FirstAt(fd: FormData, key: string, i: int) {
    0 <= i < |fd| && fd[i].0 == key && forall j :: 0 <= j < i ==> fd[j].0 != key
  }

  /** FormData.prototype.get: the value of the first entry under `key`, or null. */
  function Get(fd: FormData, key: string): (r: Option<EntryValue>)
    ensures forall i :: FirstAt(fd, key, i) ==> r == Some(fd[i].1)
    ensures r.None? <==> forall i :: 0 <= i < |fd| ==> fd[i].0 != key
  {
    if fd == [] then None
    else if fd[0].0 == key then Some(fd[0].1)
    else
      assert forall i :: FirstAt(fd, key, i) ==> i > 0 && FirstAt(fd[1..], key, i - 1);
      Get(fd[1..], key)
  }

  /** JavaScript truthiness of a `get` result: null and "" are falsy, files are truthy. */
  predicate Present(v: Option<EntryValue>) {
    v.Some? && (v.value.StringValue? ==> v.value.text != "")
  }
}
