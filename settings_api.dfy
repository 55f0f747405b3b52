/**
 * `/api/settings`: GET folds the `settings` rows into one key-to-value
 * object; POST lets an admin insert or overwrite the five payment and
 * contact settings inside one transaction.
 */
module SettingsApi {
  import opened Wrappers
  import opened Domain
  import Tables

  /** A row of `SELECT key, value FROM settings`. */
  datatype SettingRow = SettingRow(key: string, value: string)

  /** The object after the `reduce` has gone over `rows`: each row writes its key, later rows last. */
  function FoldRows(rows: seq<SettingRow>): map<string, string> {
    if rows == [] then map[]
    else FoldRows(rows[..|rows| - 1])[rows[|rows| - 1].key := rows[|rows| - 1].value]
  }

  /** The index of the last row carrying `key`. */
  predicate LastWith(rows: seq<SettingRow>, key: string, i: int) {
    0 <= i < |rows| && rows[i].key == key && forall j :: i < j < |rows| ==> rows[j].key != key
  }

  /** A key is in the folded object exactly when some row carries it. */
  lemma {:induction false} FoldedKeys(rows: seq<SettingRow>, key: string)
    ensures key in FoldRows(rows) <==> exists i :: 0 <= i < |rows| && rows[i].key == key
  {
    if rows != [] {
      var n := |rows|;
      var init := rows[..n - 1];
      FoldedKeys(init, key);
      if exists i :: 0 <= i < n - 1 && init[i].key == key {
        var i :| 0 <= i < n - 1 && init[i].key == key;
        assert rows[i].key == key;
      }
      if exists i :: 0 <= i < n && rows[i].key == key {
        var i :| 0 <= i < n && rows[i].key == key;
        if i < n - 1 {
          assert init[i].key == key;
        }
      }
    }
  }

  /** A key's folded value is that of the last row carrying it. */
  lemma {:induction false} LastRowWins(rows: seq<SettingRow>, key: string, i: int)
    requires LastWith(rows, key, i)
    ensures key in FoldRows(rows) && FoldRows(rows)[key] == rows[i].value
  {
    var n := |rows|;
    if i < n - 1 {
      var init := rows[..n - 1];
      assert LastWith(init, key, i) by {
        forall j | i < j < |init| ensures init[j].key != key {
          assert init[j] == rows[j];
        }
      }
      LastRowWins(init, key, i);
    }
  }

  /** Reading back a table whose rows agree with a key-to-value map, one row per key, gives that map. */
  lemma ReadsBackTable(rows: seq<SettingRow>, table: map<string, string>)
    requires forall i :: 0 <= i < |rows| ==> rows[i].key in table && table[rows[i].key] == rows[i].value
    requires forall k :: k in table ==> exists i :: 0 <= i < |rows| && rows[i].key == k
    ensures FoldRows(rows) == table
  {
    forall k ensures k in FoldRows(rows) <==> k in table {
      FoldedKeys(rows, k);
    }
    forall k | k in table ensures FoldRows(rows)[k] == table[k] {
      var i := LastIndexOf(rows, k);
      LastRowWins(rows, k, i);
    }
  }

  /** The position of the last row carrying `key`, given that one does. */
  function LastIndexOf(rows: seq<SettingRow>, key: string): (i: int)
    requires exists i :: 0 <= i < |rows| && rows[i].key == key
    ensures LastWith(rows, key, i)
  {
    if rows[|rows| - 1].key == key then |rows| - 1
    else
      var i :| 0 <= i < |rows| && rows[i].key == key;
      assert rows[..|rows| - 1][i].key == key;
      LastIndexOf(rows[..|rows| - 1], key)
  }

  /** `GET /api/settings`: the `reduce` as a loop writing into the accumulator object. */
  method GetSettings(rows: seq<SettingRow>) returns (acc: map<string, string>)
    ensures acc == FoldRows(rows)
  {
    acc := map[];
    var i := 0;
    while i < |rows|
      invariant 0 <= i <= |rows|
      invariant acc == FoldRows(rows[..i])
    {
      assert rows[..i + 1][..i] == rows[..i];
      acc := acc[rows[i].key := rows[i].value];
      i := i + 1;
    }
    assert rows[..i] == rows;
  }

  /** The only keys POST writes, in the order it writes them. */
  const Whitelist: seq<string> := ["upi_id", "whatsapp_number", "instructions", "qr_code_url", "email"]

  /** The upserts for `keys`, each skipped when the body leaves that key undefined. */
  function Upserted(settings: map<string, string>, body: map<string, string>, keys: seq<string>): (r: map<string, string>)
    ensures forall k :: k in r <==> k in settings || (k in keys && k in body)
  {
    if keys == [] then settings
    else
      var init := keys[..|keys| - 1];
      var k := keys[|keys| - 1];
      var prev := Upserted(settings, body, init);
      assert forall x :: x in keys <==> x in init || x == k;
      if k in body then prev[k := body[k]] else prev
  }

  /** One more key: its upsert, when the body defines it, goes on top of the earlier ones. */
  lemma UpsertedStep(settings: map<string, string>, body: map<string, string>, keys: seq<string>, i: int)
    requires 0 <= i < |keys|
    ensures var prev := Upserted(settings, body, keys[..i]);
      Upserted(settings, body, keys[..i + 1]) == if keys[i] in body then prev[keys[i] := body[keys[i]]] else prev
  {
    assert keys[..i + 1][..i] == keys[..i];
  }

  /** A listed key the body defines takes the body's value; every other stored key keeps its value. */
  lemma {:induction false} UpsertedValues(settings: map<string, string>, body: map<string, string>, keys: seq<string>)
    ensures forall k :: k in keys && k in body ==> Upserted(settings, body, keys)[k] == body[k]
    ensures forall k :: k in settings && !(k in keys && k in body) ==> Upserted(settings, body, keys)[k] == settings[k]
  {
    if keys != [] {
      var init := keys[..|keys| - 1];
      UpsertedValues(settings, body, init);
      assert forall x :: x in keys <==> x in init || x == keys[|keys| - 1];
    }
  }

  datatype SettingsError = Unauthorized | UpdateFailed

  /** Whether the `at`-th whitelisted upsert is issued and throws. */
  predicate FailsAt(body: map<string, string>, failAt: Option<nat>) {
    failAt.Some? && failAt.value < |Whitelist| && Whitelist[failAt.value] in body
  }

  /**
   * The upsert loop inside the transaction, over `keys` in order.  When the
   * upsert at position `failAt` is issued it throws, and the rollback
   * restores the settings as they were before the loop.
   */
  method UpsertKeys(db: Tables.Database, body: map<string, string>, keys: seq<string>, failAt: Option<nat>)
    returns (failed: bool)
    modifies db`settings
    ensures failed == (failAt.Some? && failAt.value < |keys| && keys[failAt.value] in body)
    ensures failed ==> db.settings == old(db.settings)
    ensures !failed ==> db.settings == Upserted(old(db.settings), body, keys)
  {
    var snapshot := db.settings;
    var i := 0;
    while i < |keys|
      invariant 0 <= i <= |keys|
      invariant db.settings == Upserted(snapshot, body, keys[..i])
      invariant forall j :: 0 <= j < i ==> !(failAt == Some(j) && keys[j] in body)
    {
      UpsertedStep(snapshot, body, keys, i);
      var key := keys[i];
      if key in body {
        if failAt == Some(i) {
          db.settings := snapshot;
          return true;
        }
        db.settings := db.settings[key := body[key]];
      }
      i := i + 1;
    }
    assert keys[..i] == keys;
    failed := false;
  }

  /**
   * `POST /api/settings`.  `failAt` is the position in the whitelist of the
   * upsert the database rejects, if any: a rejected upsert rolls back the
   * ones before it.  Non-admins get `Unauthorized` and nothing is written.
   */
  method SaveSettings(db: Tables.Database, session: Option<Principal>, body: map<string, string>,
                      failAt: Option<nat>)
    returns (r: Result<(), SettingsError>)
    modifies db`settings
    ensures !IsAdmin(session) ==> r == Failure(Unauthorized)
    ensures IsAdmin(session) && FailsAt(body, failAt) ==> r == Failure(UpdateFailed)
    ensures IsAdmin(session) && !FailsAt(body, failAt) ==> r == Success(())
    ensures r.Failure? ==> db.settings == old(db.settings)
    ensures r.Success? ==> db.settings == Upserted(old(db.settings), body, Whitelist)
  {
    if !IsAdmin(session) {
      return Failure(Unauthorized);
    }
    var failed := UpsertKeys(db, body, Whitelist, failAt);
    r := if failed then Failure(UpdateFailed) else Success(());
  }

  /** A successful save changes exactly the whitelisted keys the body defines, to the body's values. */
  lemma SaveTouchesOnlyWhitelist(settings: map<string, string>, body: map<string, string>)
    ensures var r := Upserted(settings, body, Whitelist);
      && (forall k :: k !in Whitelist ==> (k in r <==> k in settings) && (k in settings ==> r[k] == settings[k]))
      && (forall k :: k in Whitelist && k in body ==> k in r && r[k] == body[k])
      && (forall k :: k in Whitelist && k !in body ==> (k in r <==> k in settings) && (k in settings ==> r[k] == settings[k]))
  {
    UpsertedValues(settings, body, Whitelist);
  }
}
