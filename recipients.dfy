/**
 * The Telegram recipient store: a JSON file holding the registered chat
 * ids as a sorted list without duplicates.
 */
module Recipients {
  import opened Wrappers
  import opened Text
  import opened StringOrder
  import opened Json

  /** What reading the file finds: no file, text that is not JSON (reading
      it raises), or a decoded document. */
  datatype RecipientFile = Missing | Corrupt | Parsed(data: Json)

  /** The listed ids of a file: `None` when reading raises. A document that
      is not a list lists nothing; blank entries are skipped and the others
      are listed as their `str`, untrimmed. */
  function ListedIds(file: RecipientFile): (r: Option<seq<string>>)
    ensures r.None? <==> file.Corrupt?
    ensures r.Some? ==> forall k :: 0 <= k < |r.value| ==> Trim(r.value[k]) != []
  {
    match file
    case Missing => Some([])
    case Corrupt => None
    case Parsed(data) => if data.JArray? then Some(NonBlank(data.items)) else Some([])
  }

  /** `[str(item) for item in items if str(item).strip()]`. */
  function NonBlank(items: seq<Json>): (r: seq<string>)
    ensures forall k :: 0 <= k < |r| ==> Trim(r[k]) != []
  {
    if items == [] then []
    else if Trim(PyStr(items[0])) != [] then [PyStr(items[0])] + NonBlank(items[1..])
    else NonBlank(items[1..])
  }

  /** Every item whose `str` is not blank is listed. */
  lemma {:induction false} NonBlankListsEvery(items: seq<Json>)
    ensures forall k :: 0 <= k < |items| && Trim(PyStr(items[k])) != [] ==> PyStr(items[k]) in NonBlank(items)
  {
    if items != [] {
      NonBlankListsEvery(items[1..]);
      forall k | 1 <= k < |items| ensures items[k] == items[1..][k - 1] {
      }
    }
  }

  /** The document written for a list of ids. */
  function Encode(ids: seq<string>): Json {
    JArray(Strings(ids))
  }

  function Strings(ids: seq<string>): seq<Json> {
    if ids == [] then [] else [JString(ids[0])] + Strings(ids[1..])
  }

  /** Reading back a written list of non-blank ids gives the list. */
  lemma {:induction false} EncodeRoundTrip(ids: seq<string>)
    requires forall k :: 0 <= k < |ids| ==> Trim(ids[k]) != []
    ensures ListedIds(Parsed(Encode(ids))) == Some(ids)
  {
    NonBlankStrings(ids);
  }

  lemma {:induction false} NonBlankStrings(ids: seq<string>)
    requires forall k :: 0 <= k < |ids| ==> Trim(ids[k]) != []
    ensures NonBlank(Strings(ids)) == ids
  {
    if ids != [] {
      NonBlankStrings(ids[1..]);
      var items := Strings(ids);
      assert items[1..] == Strings(ids[1..]);
      assert PyStr(items[0]) == ids[0];
    }
  }

  /** The ids stored after adding `id` to the listed ids. */
  function WithId(ids: seq<string>, id: string): (r: seq<string>)
    ensures StrictlySorted(r)
    ensures forall y :: y in r <==> y == id || y in ids
  {
    SortedSetSorted(ids + [id]);
    SortedSet(ids + [id])
  }

  /** Adding an id twice stores the same list as adding it once. */
  lemma AddIdempotent(ids: seq<string>, id: string)
    ensures WithId(WithId(ids, id), id) == WithId(ids, id)
  {
    SortedUnique(WithId(WithId(ids, id), id), WithId(ids, id));
  }

  /** Adding never drops an id, and stores each id once, in order. */
  lemma AddKeepsIds(ids: seq<string>, id: string)
    ensures forall y :: y in ids ==> y in WithId(ids, id)
    ensures id in WithId(ids, id)
    ensures forall i, j :: 0 <= i < j < |WithId(ids, id)| ==> WithId(ids, id)[i] != WithId(ids, id)[j]
  {
    var r := WithId(ids, id);
    forall i, j | 0 <= i < j < |r| ensures r[i] != r[j] {
      assert Less(r[i], r[j]);
      LessIrreflexive(r[i]);
    }
  }

  /** The stored list is the ascending list of the old ids and the new one. */
  lemma WithIdIs(ids: seq<string>, id: string, expected: seq<string>)
    requires StrictlySorted(expected)
    requires forall y :: y in expected <==> y == id || y in ids
    ensures WithId(ids, id) == expected
  {
    SortedUnique(WithId(ids, id), expected);
  }

  /** Adding "1", "2" and "1" to an empty store lists "1" then "2". */
  lemma AddExample()
    ensures WithId(WithId(WithId([], "1"), "2"), "1") == ["1", "2"]
  {
    assert Less("1", "2");
    assert StrictlySorted(["1", "2"]);
    assert forall y :: y in ["1", "2"] <==> y == "2" || y in ["1"];
    assert forall y :: y in ["1", "2"] <==> y == "1" || y in ["1", "2"];
    WithIdIs([], "1", ["1"]);
    WithIdIs(["1"], "2", ["1", "2"]);
    WithIdIs(["1", "2"], "1", ["1", "2"]);
  }

  /** The store. */
  class TelegramRecipientStore {
    var file: RecipientFile

    constructor(file: RecipientFile)
      ensures this.file == file
    {
      this.file := file;
    }

    /** `list_chat_ids`; `None` when the file cannot be decoded. */
    function ListChatIds(): Option<seq<string>>
      reads this
    {
      ListedIds(file)
    }

    /** `add_chat_id`: a blank id is ignored; otherwise the listed ids plus
        the trimmed id are written back sorted and without duplicates.
        `ok` is false when reading the file raises, which leaves it as it is. */
    method AddChatId(chatId: string) returns (ok: bool)
      modifies this
      ensures var id := Trim(chatId);
        && ok == !(id != [] && old(file).Corrupt?)
        && (if id == [] || !ok then file == old(file)
            else ListChatIds() == Some(WithId(old(ListChatIds()).value, id)))
    {
      var id := Trim(chatId);
      if id == [] {
        return true;
      }
      var current := ListChatIds();
      if current.None? {
        return false;
      }
      var ids := WithId(current.value, id);
      forall k | 0 <= k < |ids| ensures Trim(ids[k]) != [] {
        assert ids[k] == id || ids[k] in current.value;
      }
      file := Parsed(Encode(ids));
      EncodeRoundTrip(ids);
      return true;
    }
  }
}
