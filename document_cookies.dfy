/** The naive `document.cookie` parser that both client API modules inline in their token getters:
  * split on `;`, trim each piece, split it on `=`, keep the trimmed text before the first `=` as the
  * key and the text between the first and the second `=` as the value, later pieces overwriting
  * earlier ones. It reads the `name=value; name=value` form of section 4.2.1 of RFC 6265. */
module DocumentCookies {
  import opened Base
  import opened Strings

  /** What one `;`-piece contributes to the record. */
  datatype Entry = Entry(key: string, value: Option<string>)

  /** The body of the `reduce` callback: trim the piece, split it on `=`, take the trimmed text
    * before the first `=` as the key and the text between the first and second `=` as the
    * value, or nothing (`undefined`) when the piece holds no `=`. */
  function EntryOf(piece: string): Entry {
    var parts := Split(Trim(piece), '=');
    Entry(Trim(parts[0]), if |parts| >= 2 then Some(parts[1]) else None)
  }

  /** A piece that trims to `k=v` or `k=v=…`: the key is `k` trimmed, the value is `v`
    * untrimmed, and it stops at the second `=`. */
  lemma EntryOfPiece(piece: string, k: string, v: string, tail: string)
    requires '=' !in k && '=' !in v && (tail == "" || tail[0] == '=')
    requires Trim(piece) == k + "=" + v + tail
    ensures EntryOf(piece) == Entry(Trim(k), Some(v))
  {
    var p := k + "=" + v + tail;
    var rest := Split(v + tail, '=');
    assert Split(p, '=') == [k] + rest by {
      assert p == k + ['='] + (v + tail);
      SplitAtFirst(k, '=', v + tail);
    }
    assert rest[0] == v by {
      FirstPiece(v, tail);
    }
    var parts := Split(Trim(piece), '=');
    assert parts == [k] + rest;
    assert |parts| >= 2 && parts[0] == k && parts[1] == v;
  }

  /** The pieces after the first begin with the space of the `"; "` separator: white space
    * before `k=v…` is trimmed away and the entry is that of `k=v…`. */
  lemma SpacedPieceEntry(ws: string, k: string, v: string, tail: string)
    requires forall i :: 0 <= i < |ws| ==> IsSpace(ws[i])
    requires '=' !in k && '=' !in v && (tail == "" || tail[0] == '=')
    requires var p := k + "=" + v + tail; !IsSpace(p[0]) && !IsSpace(p[|p| - 1])
    ensures EntryOf(ws + k + "=" + v + tail) == Entry(Trim(k), Some(v))
  {
    var p := k + "=" + v + tail;
    assert ws + k + "=" + v + tail == ws + p;
    TrimLeading(ws, p);
    EntryOfPiece(ws + p, k, v, tail);
  }

  /** The first piece of `v + tail` is `v` when the tail is empty or starts with the separator. */
  lemma FirstPiece(v: string, tail: string)
    requires '=' !in v && (tail == "" || tail[0] == '=')
    ensures Split(v + tail, '=')[0] == v
  {
    if tail == "" {
      assert v + tail == v;
      assert IndexOf(v, '=') == |v|;
    } else {
      assert v + tail == v + ['='] + tail[1..];
      SplitAtFirst(v, '=', tail[1..]);
    }
  }

  /** A piece without `=` has no value (`undefined`). */
  lemma EntryWithoutValue(piece: string)
    requires '=' !in piece
    ensures EntryOf(piece).value.None?
  {
    var t := Trim(piece);
    TrimKeepsOut(piece, '=');
    SplitWithout(t, '=');
  }

  /** The entries of `document.cookie`, one per `;`-piece, in order. */
  function Entries(cookie: string): (es: seq<Entry>)
  {
    var pieces := Split(cookie, ';');
    seq(|pieces|, i requires 0 <= i < |pieces| => EntryOf(pieces[i]))
  }

  /** Reference definition: the value of the LAST entry whose key is `key`, or `None` when no
    * entry has that key. */
  function LastEntry(es: seq<Entry>, key: string): Option<Option<string>> {
    if es == [] then None
    else if es[|es| - 1].key == key then Some(es[|es| - 1].value)
    else LastEntry(es[..|es| - 1], key)
  }

  /** `LastEntry` finds exactly the last occurrence of the key. */
  lemma {:induction false} LastEntryIsLastOccurrence(es: seq<Entry>, key: string, j: nat)
    requires j < |es| && es[j].key == key
    requires forall l :: j < l < |es| ==> es[l].key != key
    ensures LastEntry(es, key) == Some(es[j].value)
  {
    if j < |es| - 1 {
      var front := es[..|es| - 1];
      assert forall l :: j < l < |front| ==> front[l] == es[l];
      LastEntryIsLastOccurrence(front, key, j);
    }
  }

  /** `LastEntry` finds nothing exactly when no entry has the key. */
  lemma {:induction false} LastEntryAbsent(es: seq<Entry>, key: string)
    ensures LastEntry(es, key).None? <==> forall l :: 0 <= l < |es| ==> es[l].key != key
  {
    if es != [] {
      var front := es[..|es| - 1];
      LastEntryAbsent(front, key);
      assert forall l :: 0 <= l < |front| ==> front[l] == es[l];
    }
  }

  /** The record the `reduce` builds: each entry in turn assigned into it. */
  function Record(es: seq<Entry>): map<string, Option<string>> {
    if es == [] then map[] else Record(es[..|es| - 1])[es[|es| - 1].key := es[|es| - 1].value]
  }

  /** One more entry assigns its key. */
  lemma RecordStep(es: seq<Entry>, i: nat)
    requires i < |es|
    ensures Record(es[..i + 1]) == Record(es[..i])[es[i].key := es[i].value]
  {
    assert es[..i + 1][..i] == es[..i];
  }

  /** The record holds, under every key, the value of the last entry with that key. */
  lemma {:induction false} RecordIsLastEntry(es: seq<Entry>)
    ensures forall k :: k in Record(es) <==> LastEntry(es, k).Some?
    ensures forall k :: k in Record(es) ==> Record(es)[k] == LastEntry(es, k).value
  {
    if es != [] {
      RecordIsLastEntry(es[..|es| - 1]);
    }
  }

  /** The `reduce` over `document.cookie.split(";")` that fills the `acc` record. */
  method Parse(cookie: string) returns (acc: map<string, Option<string>>)
    ensures forall k :: k in acc <==> LastEntry(Entries(cookie), k).Some?
    ensures forall k :: k in acc ==> acc[k] == LastEntry(Entries(cookie), k).value
  {
    var pieces := Split(cookie, ';');
    ghost var es := Entries(cookie);
    acc := map[];
    for i := 0 to |pieces|
      invariant acc == Record(es[..i])
    {
      var entry := EntryOf(pieces[i]);
      assert entry == es[i];
      RecordStep(es, i);
      acc := acc[entry.key := entry.value];
    }
    assert acc == Record(es) by {
      assert es[..|pieces|] == es;
    }
    RecordIsLastEntry(es);
  }

  /** `cookies[name] || null`: the entry when it is a non-empty string, otherwise nothing. */
  function TruthyEntry(e: Option<Option<string>>): (r: Option<string>)
  {
    if e.Some? && Truthy(e.value) then e.value else None
  }

  /** The token getter shared by both client modules: `null` without a document, otherwise the
    * last value stored under `name` when it is a non-empty string. */
  method GetToken(document: Option<string>, name: string) returns (token: Option<string>)
    ensures document.None? ==> token == None
    ensures document.Some? ==> token == TruthyEntry(LastEntry(Entries(document.value), name))
    ensures document.Some? ==> var e := LastEntry(Entries(document.value), name);
      (token.Some? <==> e.Some? && Truthy(e.value)) && (token.Some? ==> token == e.value)
    ensures token.Some? ==> token.value != ""
  {
    if document.None? {
      return None;
    }
    var cookies := Parse(document.value);
    if name in cookies && Truthy(cookies[name]) {
      token := cookies[name];
    } else {
      token := None;
    }
  }
}
