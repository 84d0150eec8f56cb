/** The browser's FormData as the list form builds it and the server action
    reads it: an ordered sequence of entries, each a key with a text or a
    file value. */
module WebForm {
  import opened Wrappers
  import opened JsText

  /** A file selected in an <input type="file"> or dropped on the page: its
      name, its MIME type as the browser reports it, and its size in bytes. */
  datatype File = File(name: string, mimeType: string, size: nat)

  datatype FormValue = Text(text: string) | Blob(file: File)

  type FormData = seq<(string, FormValue)>

  /** `formData.get(key)`, and `searchParams.get(key)` on a URL's query: the
      value of the first entry under `key`, or null. */
  function Get<V>(form: seq<(string, V)>, key: string): (r: Option<V>)
    ensures r.Some? <==> exists i :: 0 <= i < |form| && form[i].0 == key
    ensures r.Some? ==> exists i :: 0 <= i < |form| && form[i].0 == key && form[i].1 == r.value
                                   && forall j :: 0 <= j < i ==> form[j].0 != key
  {
    if form == [] then None
    else if form[0].0 == key then Some(form[0].1)
    else
      var r := Get(form[1..], key);
      assert forall i :: 1 <= i < |form| ==> form[i] == form[1..][i - 1];
      r
  }

  /** `formData.getAll(key)`: the values of every entry under `key`, in
      order. */
  function GetAll(form: FormData, key: string): seq<FormValue> {
    if form == [] then []
    else (if form[0].0 == key then [form[0].1] else []) + GetAll(form[1..], key)
  }

  /** Reading all values of a key from two concatenated forms reads each in
      turn. */
  lemma {:induction false} GetAllConcat(a: FormData, b: FormData, key: string)
    ensures GetAll(a + b, key) == GetAll(a, key) + GetAll(b, key)
  {
    if a != [] {
      assert (a + b)[0] == a[0] && (a + b)[1..] == a[1..] + b;
      GetAllConcat(a[1..], b, key);
    } else {
      assert a + b == b;
    }
  }

  /** `formData.append(key, value)`. */
  function Append(form: FormData, key: string, v: FormValue): (r: FormData)
    ensures |r| == |form| + 1 && r[..|form|] == form && r[|form|] == (key, v)
  {
    form + [(key, v)]
  }

  /** `String(value)`: a text is itself, a file prints as "[object File]". */
  function Stringify(v: FormValue): (s: string)
    ensures v.Text? ==> s == v.text
    ensures v.Blob? ==> s == "[object File]"
  {
    match v
    case Text(t) => t
    case Blob(_) => "[object File]"
  }

  /** JavaScript truthiness of `formData.get(key)`: null and the empty string
      are falsy, every other string and every file object truthy. */
  predicate Present(v: Option<FormValue>) {
    v.Some? && (v.value.Blob? || Truthy(v.value.text))
  }
}
