/** The API-key manager of the API usage page: a list of keys held in page state, a dialog that
    creates a key and shows its token once, deletion by id, and the masked token column. */
module ApiKeys {
  import opened JsValues

  /** One key of the list, with every field as the page holds it (dates are display strings). */
  datatype ApiKey = ApiKey(id: int, name: string, token: string, createdAt: string, expiresAt: string)

  /** The error `generateApiKey` raises when neither an expiry date nor "No Expiration" is set. */
  const MissingExpiryError := "Please set an expiration date or select 'No Expiration'"

  /** The alert the Generate button shows for the same condition. */
  const MissingExpiryAlert := "Please either set an expiration date or check 'No Expiration'"

  /** The two keys the page starts with. */
  const InitialApiKeys: seq<ApiKey> := [
    ApiKey(1, "Production Key", "abcd************", "2023-01-01", "2024-01-01"),
    ApiKey(2, "Development Key", "efgh************", "2023-02-15", "2023-12-31")
  ]

  /** `n` mask characters: `'*'.repeat(n)` for `n >= 0`. */
  function Stars(n: nat): (r: string)
    ensures |r| == n && forall i :: 0 <= i < n ==> r[i] == '*'
  {
    seq(n, _ => '*')
  }

  /** The token cell of the key table: the first four characters followed by one `*` for every
      further character. A token shorter than four characters makes `'*'.repeat` receive a
      negative count, which throws instead of showing the token. */
  function Mask(token: string): (r: Outcome<string>)
    ensures r.Threw? <==> |token| < 4
    ensures r.Threw? ==> r.thrown == RangeError
    ensures r.Returned? ==> |r.value| == |token| && r.value[..4] == token[..4]
    ensures r.Returned? ==> forall i :: 4 <= i < |token| ==> r.value[i] == '*'
  {
    if |token| < 4 then Threw(RangeError) else Returned(token[..4] + Stars(|token| - 4))
  }

  /** A token of exactly four characters is shown in full. */
  lemma MaskOfFour(token: string)
    requires |token| == 4
    ensures Mask(token) == Returned(token)
  {
    assert token[..4] + Stars(0) == token;
  }

  /** The masked form reveals only the first four characters and the length: two tokens that
      agree on both mask to the same cell. */
  lemma MaskRevealsOnlyPrefixAndLength(t1: string, t2: string)
    requires |t1| == |t2| && |t1| >= 4 && t1[..4] == t2[..4]
    ensures Mask(t1) == Mask(t2)
  {
  }

  /** The token column of the table, one masked cell per key in list order; rendering throws as
      soon as one key's token is too short to mask. */
  function TokenColumn(keys: seq<ApiKey>): (r: Outcome<seq<string>>)
    ensures r.Returned? <==> forall i :: 0 <= i < |keys| ==> |keys[i].token| >= 4
    ensures r.Returned? ==> |r.value| == |keys|
    ensures r.Returned? ==> forall i :: 0 <= i < |keys| ==> Mask(keys[i].token) == Returned(r.value[i])
  {
    if keys == [] then Returned([])
    else
      match Mask(keys[0].token)
      case Threw(e) => Threw(e)
      case Returned(cell) =>
        match TokenColumn(keys[1..])
        case Threw(e) => Threw(e)
        case Returned(rest) =>
          assert forall i :: 1 <= i < |keys| ==> keys[i] == keys[1..][i - 1];
          Returned([cell] + rest)
  }

  /** `Math.random().toString(36).substring(2, 15)`, given the base-36 rendering of the draw
      (for example `"0.4fzyo82mvyr"`): at most thirteen characters. */
  function TokenPart(rendering: string): (r: string)
    ensures |r| <= 13
    ensures |rendering| >= 15 ==> r == rendering[2..15]
  {
    Substring(rendering, 2, 15)
  }

  /** The token of a new key, made of two draws: at most 26 characters, and possibly fewer than
      four (a draw whose rendering is `"0"` or `"0.i"` contributes nothing or one character). */
  function NewToken(rendering1: string, rendering2: string): (r: string)
    ensures |r| <= 26
    ensures |r| == |TokenPart(rendering1)| + |TokenPart(rendering2)|
  {
    TokenPart(rendering1) + TokenPart(rendering2)
  }

  /** A new token can be too short to mask, so the table then fails to render. */
  lemma ShortTokenBreaksTable(keys: seq<ApiKey>, k: ApiKey)
    requires k.token == NewToken("0.i", "0")
    ensures TokenColumn(keys + [k]).Threw?
  {
    assert TokenPart("0.i") == "i";
    assert TokenPart("0") == "";
    assert (keys + [k])[|keys|] == k;
  }

  /** The keys whose id is `id`. */
  function CountId(keys: seq<ApiKey>, id: int): (n: nat)
    ensures n <= |keys|
  {
    if keys == [] then 0 else (if keys[0].id == id then 1 else 0) + CountId(keys[1..], id)
  }

  /** `apiKeys.filter(key => key.id !== id)`: the keys whose id differs from `id`. */
  function DeleteKeys(keys: seq<ApiKey>, id: int): (r: seq<ApiKey>)
    ensures |r| == |keys| - CountId(keys, id)
    ensures forall k :: k in r <==> k in keys && k.id != id
  {
    if keys == [] then []
    else (if keys[0].id != id then [keys[0]] else []) + DeleteKeys(keys[1..], id)
  }

  /** Deleting from a concatenation deletes from each part: the surviving keys keep their order. */
  lemma {:induction false} DeleteKeysAppend(a: seq<ApiKey>, b: seq<ApiKey>, id: int)
    ensures DeleteKeys(a + b, id) == DeleteKeys(a, id) + DeleteKeys(b, id)
  {
    if a == [] {
      assert a + b == b;
    } else {
      assert (a + b)[1..] == a[1..] + b;
      DeleteKeysAppend(a[1..], b, id);
    }
  }

  /** Deleting an id that no key has leaves the list as it is. */
  lemma {:induction false} DeleteAbsentId(keys: seq<ApiKey>, id: int)
    requires forall k :: k in keys ==> k.id != id
    ensures DeleteKeys(keys, id) == keys
  {
    if keys != [] {
      assert forall k :: k in keys[1..] ==> k in keys;
      DeleteAbsentId(keys[1..], id);
    }
  }

  /** Deleting twice is deleting once. */
  lemma DeleteKeysIdempotent(keys: seq<ApiKey>, id: int)
    ensures DeleteKeys(DeleteKeys(keys, id), id) == DeleteKeys(keys, id)
  {
    DeleteAbsentId(DeleteKeys(keys, id), id);
  }

  /** Key ids are not unique. Take a list whose newest key carries the id `|keys|` (it was
      generated with no delete since) and delete some other id that exactly one key has: the
      next generated key gets the newest key's id again, and a later delete of that id removes
      both keys. */
  lemma IdsCollideAfterDelete(keys: seq<ApiKey>, d: int, name: string, token: string, today: string, expiresAt: string)
    requires keys != [] && keys[|keys| - 1].id == |keys|
    requires d != |keys| && CountId(keys, d) == 1
    ensures var rest := DeleteKeys(keys, d);
            var next := ApiKey(|rest| + 1, name, token, today, expiresAt);
            && next.id == keys[|keys| - 1].id
            && CountId(rest + [next], next.id) >= 2
            && |DeleteKeys(rest + [next], next.id)| <= |rest| - 1
  {
    var rest := DeleteKeys(keys, d);
    var last := keys[|keys| - 1];
    var next := ApiKey(|rest| + 1, name, token, today, expiresAt);
    assert last in keys;
    assert last in rest;
    CountPositive(rest, last);
    CountAppend(rest, [next], next.id);
    assert CountId([next], next.id) == 1;
  }

  /** A key in the list counts towards its own id. */
  lemma {:induction false} CountPositive(keys: seq<ApiKey>, k: ApiKey)
    requires k in keys
    ensures CountId(keys, k.id) >= 1
  {
    if keys[0] != k {
      CountPositive(keys[1..], k);
    }
  }

  lemma {:induction false} CountAppend(a: seq<ApiKey>, b: seq<ApiKey>, id: int)
    ensures CountId(a + b, id) == CountId(a, id) + CountId(b, id)
  {
    if a == [] {
      assert a + b == b;
    } else {
      assert (a + b)[1..] == a[1..] + b;
      CountAppend(a[1..], b, id);
    }
  }

  /** The page's starting list shows the collision: delete key 1, generate, and two keys have id 2. */
  lemma InitialKeysCollide(name: string, token: string, today: string, expiresAt: string)
    ensures var rest := DeleteKeys(InitialApiKeys, 1);
            CountId(rest + [ApiKey(|rest| + 1, name, token, today, expiresAt)], 2) == 2
  {
    var rest := DeleteKeys(InitialApiKeys, 1);
    assert rest == [InitialApiKeys[1]];
  }

  /** The state of the API usage page that concerns keys: the list, the creation dialog's
      inputs, whether the dialog is open, the token the dialog shows, and the alerts raised. */
  class ApiKeyPage {
    var apiKeys: seq<ApiKey>
    var newKeyName: string
    var newKeyExpiration: string
    var noExpiration: bool
    var isDialogOpen: bool
    var newApiKey: Option<string>
    var alerts: seq<string>

    constructor ()
      ensures apiKeys == InitialApiKeys && newKeyName == "" && newKeyExpiration == ""
      ensures !noExpiration && !isDialogOpen && newApiKey == None && alerts == []
    {
      apiKeys := InitialApiKeys;
      newKeyName, newKeyExpiration := "", "";
      noExpiration, isDialogOpen := false, false;
      newApiKey := None;
      alerts := [];
    }

    /** A key may be generated when "No Expiration" is checked or an expiry date is entered. */
    predicate CanGenerate()
      reads this
    {
      noExpiration || Truthy(newKeyExpiration)
    }

    /** What the dialog shows: the new token in full while one is held (and non-empty), and the
        creation form otherwise. */
    function ShownToken(): (r: Option<string>)
      reads this
      ensures r.Some? <==> TruthyOpt(newApiKey)
      ensures r.Some? ==> r == newApiKey
    {
      OrAbsent(newApiKey)
    }

    /** The name input. */
    method SetNewKeyName(name: string)
      modifies this
      ensures newKeyName == name
      ensures apiKeys == old(apiKeys) && newKeyExpiration == old(newKeyExpiration) && noExpiration == old(noExpiration)
      ensures isDialogOpen == old(isDialogOpen) && newApiKey == old(newApiKey) && alerts == old(alerts)
    {
      newKeyName := name;
    }

    /** The expiration date input (disabled, so not editable, while "No Expiration" is checked). */
    method SetNewKeyExpiration(date: string)
      requires !noExpiration
      modifies this
      ensures newKeyExpiration == date
      ensures apiKeys == old(apiKeys) && newKeyName == old(newKeyName) && noExpiration == old(noExpiration)
      ensures isDialogOpen == old(isDialogOpen) && newApiKey == old(newApiKey) && alerts == old(alerts)
    {
      newKeyExpiration := date;
    }

    /** The "No Expiration" checkbox: checking it also clears the entered date. */
    method SetNoExpiration(checked: bool)
      modifies this
      ensures noExpiration == checked
      ensures newKeyExpiration == if checked then "" else old(newKeyExpiration)
      ensures apiKeys == old(apiKeys) && newKeyName == old(newKeyName) && isDialogOpen == old(isDialogOpen)
      ensures newApiKey == old(newApiKey) && alerts == old(alerts)
    {
      noExpiration := checked;
      if checked {
        newKeyExpiration := "";
      }
    }

    /** `generateApiKey`. It throws, changing nothing, unless an expiry is set or "No Expiration"
        is checked; otherwise it appends one key with id `length + 1`, the entered name, the new
        token, today's date and the expiry ("Never" without one), clears the inputs and returns
        the token. */
    method GenerateApiKey(rendering1: string, rendering2: string, today: string) returns (r: Outcome<string>)
      modifies this
      ensures !old(CanGenerate()) ==> r == Threw(ErrorObject(MissingExpiryError)) && unchanged(this)
      ensures old(CanGenerate()) ==>
        && r == Returned(NewToken(rendering1, rendering2))
        && |apiKeys| == |old(apiKeys)| + 1
        && apiKeys[..|old(apiKeys)|] == old(apiKeys)
        && apiKeys[|old(apiKeys)|].id == |old(apiKeys)| + 1
        && apiKeys[|old(apiKeys)|].name == old(newKeyName)
        && apiKeys[|old(apiKeys)|].token == r.value
        && apiKeys[|old(apiKeys)|].createdAt == today
        && apiKeys[|old(apiKeys)|].expiresAt == (if old(noExpiration) then "Never" else old(newKeyExpiration))
        && newKeyName == "" && newKeyExpiration == "" && !noExpiration
        && isDialogOpen == old(isDialogOpen) && newApiKey == old(newApiKey) && alerts == old(alerts)
    {
      if !noExpiration && !Truthy(newKeyExpiration) {
        return Threw(ErrorObject(MissingExpiryError));
      }
      var newKey := ApiKey(|apiKeys| + 1, newKeyName, NewToken(rendering1, rendering2), today,
                           if noExpiration then "Never" else newKeyExpiration);
      apiKeys := apiKeys + [newKey];
      newKeyName := "";
      newKeyExpiration := "";
      noExpiration := false;
      r := Returned(newKey.token);
    }

    /** The Generate button: it checks the same condition as `generateApiKey` and alerts
        instead of calling it; otherwise the generated token becomes the one the dialog shows. */
    method ClickGenerate(rendering1: string, rendering2: string, today: string)
      modifies this
      ensures !old(CanGenerate()) ==>
        && alerts == old(alerts) + [MissingExpiryAlert]
        && apiKeys == old(apiKeys) && newKeyName == old(newKeyName)
        && newKeyExpiration == old(newKeyExpiration) && noExpiration == old(noExpiration)
        && isDialogOpen == old(isDialogOpen) && newApiKey == old(newApiKey)
      ensures old(CanGenerate()) ==>
        && alerts == old(alerts)
        && apiKeys == old(apiKeys) + [ApiKey(|old(apiKeys)| + 1, old(newKeyName), NewToken(rendering1, rendering2),
                                             today, if old(noExpiration) then "Never" else old(newKeyExpiration))]
        && newApiKey == Some(apiKeys[|old(apiKeys)|].token)
        && newApiKey == Some(NewToken(rendering1, rendering2))
        && newKeyName == "" && newKeyExpiration == "" && !noExpiration
        && isDialogOpen == old(isDialogOpen)
    {
      if noExpiration || Truthy(newKeyExpiration) {
        var r := GenerateApiKey(rendering1, rendering2, today);
        newApiKey := Some(r.value);
      } else {
        alerts := alerts + [MissingExpiryAlert];
      }
    }

    /** The Close button: the dialog closes and forgets the token, so it is never shown again. */
    method ClickClose()
      modifies this
      ensures !isDialogOpen && newApiKey == None
      ensures apiKeys == old(apiKeys) && newKeyName == old(newKeyName)
      ensures newKeyExpiration == old(newKeyExpiration) && noExpiration == old(noExpiration)
      ensures alerts == old(alerts)
    {
      isDialogOpen := false;
      newApiKey := None;
    }

    /** The dialog's own open/close requests (the New Key trigger, Escape, a click outside):
        only the open flag changes, so a token not dismissed with Close is shown again on reopening. */
    method OnOpenChange(open: bool)
      modifies this
      ensures isDialogOpen == open
      ensures apiKeys == old(apiKeys) && newKeyName == old(newKeyName)
      ensures newKeyExpiration == old(newKeyExpiration) && noExpiration == old(noExpiration)
      ensures newApiKey == old(newApiKey) && alerts == old(alerts)
    {
      isDialogOpen := open;
    }

    /** `deleteApiKey`: every key with the id goes, the others stay in order. */
    method DeleteApiKey(id: int)
      modifies this
      ensures apiKeys == DeleteKeys(old(apiKeys), id)
      ensures newKeyName == old(newKeyName) && newKeyExpiration == old(newKeyExpiration)
      ensures noExpiration == old(noExpiration) && isDialogOpen == old(isDialogOpen)
      ensures newApiKey == old(newApiKey) && alerts == old(alerts)
    {
      apiKeys := DeleteKeys(apiKeys, id);
    }
  }
}
