/** What the three work-item list pages (requirements, tasks, defects) and
    the shared create/edit modal have in common: the date fields cut at 'T'
    when a row is loaded into the form, the call a submit issues, and the
    lookup behind the columns that show a linked row. */
module ItemForm {
  import opened Common
  import opened Js
  import opened Schema

  /** `t ? t.split('T')[0] : undefined` on a timestamp column: the date
      part of a non-empty timestamp, `undefined` for null or empty text. */
  function DatePart(t: Option<string>): (v: Value)
    ensures t.None? || t == Some("") ==> v == Undefined
    ensures t.Some? && t.value != "" ==> v.Str? && v.s <= t.value && 'T' !in v.s
    ensures t.Some? && t.value != "" && 'T' !in t.value ==> v == Str(t.value)
  {
    if t.Some? && t.value != "" then
      BeforeFirstKeeps(t.value, 'T');
      Str(BeforeFirst(t.value, 'T'))
    else Undefined
  }

  /** An ISO timestamp loads into the form as its date: the text before the
      'T' separator. */
  lemma DatePartOfTimestamp(date: string, rest: string)
    requires 'T' !in date
    ensures DatePart(Some(date + "T" + rest)) == Str(date)
  {
    BeforeFirstOfJoin(date, 'T', rest);
  }

  /** The value an edit modal puts under `k` when it opens on a row: the
      two dates cut at 'T', every other field read from the row object. */
  function FormValue(item: WorkItem, k: string): Value {
    if k == "start_time" then DatePart(item.startTime)
    else if k == "end_time" then DatePart(item.endTime)
    else Get(ItemRecord(item), k)
  }

  /** The object a modal passes to `setFieldsValue` when it opens on a row:
      one entry per listed field, each with its `FormValue`. */
  function FieldsOf(item: WorkItem, keys: seq<string>): (f: Record)
    ensures forall k :: k in f <==> k in keys
    ensures forall k :: k in f ==> f[k] == FormValue(item, k)
  {
    if keys == [] then map[]
    else
      var last := keys[|keys| - 1];
      var rest := FieldsOf(item, keys[..|keys| - 1]);
      assert forall k :: k in keys <==> k in keys[..|keys| - 1] || k == last by {
        assert keys == keys[..|keys| - 1] + [last];
      }
      rest[last := FormValue(item, last)]
  }

  /** A field listed at position `i` is loaded with its `FormValue`. */
  lemma FieldsOfAt(item: WorkItem, keys: seq<string>, i: nat)
    requires i < |keys|
    ensures keys[i] in FieldsOf(item, keys)
    ensures Get(FieldsOf(item, keys), keys[i]) == FormValue(item, keys[i])
  {
  }

  /** The request a page's `handleSubmit` makes once the form validates. */
  datatype PageCall =
    | NoCall
    | Update(id: int, payload: Record)
    | Create(payload: Record)

  /** `list.find(x => x.id === id)`: the first element with that id. */
  function FindById<T(==)>(xs: seq<T>, idOf: T -> int, id: int): (r: Option<T>)
    ensures r.None? <==> forall i :: 0 <= i < |xs| ==> idOf(xs[i]) != id
    ensures r.Some? ==> idOf(r.value) == id
    ensures r.Some? ==> (exists i :: 0 <= i < |xs| && xs[i] == r.value
                          && (forall j :: 0 <= j < i ==> idOf(xs[j]) != id))
  {
    if xs == [] then None
    else if idOf(xs[0]) == id then Some(xs[0])
    else
      var rest := FindById(xs[1..], idOf, id);
      if rest.Some? then
        var i :| 0 <= i < |xs[1..]| && xs[1..][i] == rest.value
          && (forall j :: 0 <= j < i ==> idOf(xs[1..][j]) != id);
        assert xs[i + 1] == rest.value;
        assert forall j :: 0 <= j < i + 1 ==> idOf(xs[j]) != id by {
          forall j | 0 <= j < i + 1 ensures idOf(xs[j]) != id {
            if j > 0 {
              assert xs[j] == xs[1..][j - 1];
            }
          }
        }
        rest
      else
        assert forall i :: 0 <= i < |xs| ==> idOf(xs[i]) != id by {
          forall i | 0 <= i < |xs| ensures idOf(xs[i]) != id {
            if i > 0 {
              assert xs[i] == xs[1..][i - 1];
            }
          }
        }
        rest
  }

  /** A column that shows a linked row: '-' for a missing or zero id, the
      linked row when the loaded list has it, otherwise the raw id. */
  datatype LinkCell<T> = Dash | Linked(target: T) | RawId(id: int)

  function LinkCellOf<T(==)>(id: Option<int>, rows: Option<seq<T>>, idOf: T -> int): (c: LinkCell<T>)
    ensures id.None? || id == Some(0) ==> c == Dash
    ensures c.Linked? ==> id.Some? && idOf(c.target) == id.value
    ensures c.RawId? ==> id == Some(c.id) && (rows.None? || forall i :: 0 <= i < |rows.value| ==> idOf(rows.value[i]) != c.id)
    ensures id.Some? && id.value != 0 && rows.Some? && (exists i :: 0 <= i < |rows.value| && idOf(rows.value[i]) == id.value) ==> c.Linked?
  {
    if id.None? || id.value == 0 then Dash
    else if rows.None? then RawId(id.value)
    else
      match FindById(rows.value, idOf, id.value)
      case Some(row) => Linked(row)
      case None => RawId(id.value)
  }

  /** The address `handleRowClick` pushes: the page path with `?id=`. */
  function DetailAddress(pathname: string, id: int): string {
    pathname + "?id=" + IntString(id)
  }

  /** The pushed address reads back: the path before '?' is the page path
      `handleDetailClose` pushes, and the `id` parameter the page's effect
      reads is the row's id again. */
  lemma DetailAddressRoundTrip(pathname: string, id: nat)
    requires '?' !in pathname
    ensures BeforeFirst(DetailAddress(pathname, id), '?') == pathname
    ensures DetailAddress(pathname, id)[|pathname| + 1..] == "id=" + DecimalString(id)
    ensures ToNumber(DecimalString(id)) == Finite(id)
  {
    assert DetailAddress(pathname, id) == pathname + "?" + ("id=" + DecimalString(id));
    BeforeFirstOfJoin(pathname, '?', "id=" + DecimalString(id));
    NumberOfDecimal(id);
  }
}
