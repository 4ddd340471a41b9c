/** cmd/bm-client/vault/vault.go: the client's password-protected vault of
    accounts. On disk it is an envelope holding the encrypted account list,
    the salt and IV used to encrypt it, and an HMAC over the ciphertext.
    HMAC-SHA256, PBKDF2, the AES-CTR keystream and JSON are collaborators
    passed in as functions; CTR is XOR with the keystream, which is what
    makes one call both encrypt and decrypt. */
module Vault {
  import opened Common

  const PbkdfIterations: int := 100002
  const SaltSize: nat := 64

  /** An account as the vault sees it: its address, and the rest of
      `account.Info`, which the vault stores but never looks at. */
  datatype AccountInfo = AccountInfo(address: string, details: seq<bv8>)

  /** `vaultJSONData`, the structure written to disk. */
  datatype Envelope = Envelope(data: seq<bv8>, salt: seq<bv8>, iv: seq<bv8>, hmac: seq<bv8>)

  /** The cryptography the vault uses: `hmac.New(sha256.New, key)` over a
      message, `pbkdf2.Key(password, salt, iterations, length, sha256.New)`
      and the AES-CTR keystream byte at each position for a key and IV. */
  datatype Crypto = Crypto(
    hmac: (seq<bv8>, seq<bv8>) -> seq<bv8>,
    pbkdf2: (seq<bv8>, seq<bv8>, int, nat) -> seq<bv8>,
    keystream: (seq<bv8>, seq<bv8>, nat) -> bv8)

  /** `pbkdf2.Key` gives as many bytes as it is asked for. */
  ghost predicate DerivesRequestedLength(c: Crypto)
  {
    forall p, s, i, n :: |c.pbkdf2(p, s, i, n)| == n
  }

  /** `json.Marshal` and `json.Unmarshal` for the account list and for the
      envelope. */
  datatype Json = Json(
    marshalAccounts: seq<AccountInfo> -> Result<seq<bv8>>,
    unmarshalAccounts: seq<bv8> -> Result<seq<AccountInfo>>,
    marshalEnvelope: Envelope -> Result<seq<bv8>>,
    unmarshalEnvelope: seq<bv8> -> Result<Envelope>)

  lemma XorTwice(a: bv8, b: bv8)
    ensures (a ^ b) ^ b == a
  {
  }

  /** `cipher.NewCTR(block, iv).XORKeyStream(out, in)`: `out` has the length
      of `in`, each byte XORed with the keystream byte at its position. */
  function Ctr(c: Crypto, key: seq<bv8>, iv: seq<bv8>, input: seq<bv8>): (out: seq<bv8>)
    ensures |out| == |input|
  {
    seq(|input|, i requires 0 <= i < |input| => input[i] ^ c.keystream(key, iv, i))
  }

  /** CTR with the same key and IV undoes itself. */
  lemma CtrTwice(c: Crypto, key: seq<bv8>, iv: seq<bv8>, input: seq<bv8>)
    ensures Ctr(c, key, iv, Ctr(c, key, iv, input)) == input
  {
    var once := Ctr(c, key, iv, input);
    forall i | 0 <= i < |input|
      ensures Ctr(c, key, iv, once)[i] == input[i]
    {
      XorTwice(input[i], c.keystream(key, iv, i));
    }
  }

  /** `cipher.NewCTR` panics on an IV that is not one AES block. The HMAC
      covers only the ciphertext, so a file whose IV is altered gets past the
      password check and reaches that panic; it is reported here as an
      error. */
  const IvLengthPanic := Error("cipher.NewCTR: IV length must equal block size")
  const IncorrectPassword := Error("incorrect password")
  const NotFound := Error("cannot find account")

  /** The vault key: PBKDF2-SHA256 of the password and salt, 32 bytes long,
      which is an AES-256 key whenever PBKDF2 gives the length asked for. */
  function DerivedKey(c: Crypto, password: seq<bv8>, salt: seq<bv8>): (key: seq<bv8>)
    ensures DerivesRequestedLength(c) ==> |key| == KeySize && AesKeySize(key)
  {
    c.pbkdf2(password, salt, PbkdfIterations, 32)
  }

  /** The account list `unlockVault` assigns, or the error it returns: read,
      unmarshal the envelope, check the HMAC, derive the key, decrypt,
      unmarshal the accounts. `file` is what `readFileData` gives. */
  function Unlock(password: seq<bv8>, file: Result<seq<bv8>>, c: Crypto, j: Json)
    : (r: Result<seq<AccountInfo>>)
    ensures file.Fail? ==> r == Fail(file.err)
    ensures file.Ok? && j.unmarshalEnvelope(file.value).Fail? ==> r == Fail(j.unmarshalEnvelope(file.value).err)
    ensures file.Ok? && j.unmarshalEnvelope(file.value).Ok? ==>
      var env := j.unmarshalEnvelope(file.value).value;
      && (c.hmac(password, env.data) != env.hmac ==> r == Fail(IncorrectPassword))
      && (c.hmac(password, env.data) == env.hmac && !AesKeySize(DerivedKey(c, password, env.salt)) ==>
            r == Fail(KeySizeError(|DerivedKey(c, password, env.salt)|)))
      && (c.hmac(password, env.data) == env.hmac && AesKeySize(DerivedKey(c, password, env.salt)) && |env.iv| != IvSize ==>
            r == Fail(IvLengthPanic))
      && (r.Ok? <==>
            && c.hmac(password, env.data) == env.hmac
            && AesKeySize(DerivedKey(c, password, env.salt))
            && |env.iv| == IvSize
            && j.unmarshalAccounts(Ctr(c, DerivedKey(c, password, env.salt), env.iv, env.data)).Ok?)
      && (r.Ok? ==> r == j.unmarshalAccounts(Ctr(c, DerivedKey(c, password, env.salt), env.iv, env.data)))
  {
    match file
    case Fail(e) => Fail(e)
    case Ok(data) =>
      match j.unmarshalEnvelope(data)
      case Fail(e) => Fail(e)
      case Ok(env) =>
        if c.hmac(password, env.data) != env.hmac then Fail(IncorrectPassword)
        else
          var key := DerivedKey(c, password, env.salt);
          if !AesKeySize(key) then Fail(KeySizeError(|key|))
          else if |env.iv| != 16 then Fail(IvLengthPanic)
          else
            var plainText := Ctr(c, key, env.iv, env.data);
            j.unmarshalAccounts(plainText)
  }

  /** The envelope `Save` builds: a 64-byte salt, the key derived from it, a
      16-byte IV, the marshalled accounts encrypted, and the HMAC of the
      ciphertext. `saltRead` and `ivRead` are the outcomes of
      `io.ReadFull(rand.Reader, buf)`. */
  function SaveEnvelope(password: seq<bv8>, accounts: seq<AccountInfo>, saltRead: Result<seq<bv8>>,
                        ivRead: Result<seq<bv8>>, c: Crypto, j: Json)
    : (r: Result<Envelope>)
    requires saltRead.Ok? ==> |saltRead.value| == SaltSize
    requires ivRead.Ok? ==> |ivRead.value| == IvSize
    ensures saltRead.Fail? ==> r == Fail(saltRead.err)
    ensures saltRead.Ok? && !AesKeySize(DerivedKey(c, password, saltRead.value)) ==>
      r == Fail(KeySizeError(|DerivedKey(c, password, saltRead.value)|))
    ensures r.Ok? <==>
      && saltRead.Ok? && AesKeySize(DerivedKey(c, password, saltRead.value))
      && ivRead.Ok? && j.marshalAccounts(accounts).Ok?
    ensures r.Ok? ==>
      && r.value.salt == saltRead.value && |r.value.salt| == SaltSize
      && r.value.iv == ivRead.value && |r.value.iv| == IvSize
      && |r.value.data| == |j.marshalAccounts(accounts).value|
      && r.value.data == Ctr(c, DerivedKey(c, password, r.value.salt), r.value.iv, j.marshalAccounts(accounts).value)
      && r.value.hmac == c.hmac(password, r.value.data)
  {
    match saltRead
    case Fail(e) => Fail(e)
    case Ok(salt) =>
      var key := DerivedKey(c, password, salt);
      if !AesKeySize(key) then Fail(KeySizeError(|key|))
      else
        match ivRead
        case Fail(e) => Fail(e)
        case Ok(iv) =>
          match j.marshalAccounts(accounts)
          case Fail(e) => Fail(e)
          case Ok(plainText) =>
            var cipherText := Ctr(c, key, iv, plainText);
            Ok(Envelope(data := cipherText, salt := salt, iv := iv, hmac := c.hmac(password, cipherText)))
  }

  /** The bytes `Save` hands to `writeFileData`. */
  function SaveFile(password: seq<bv8>, accounts: seq<AccountInfo>, saltRead: Result<seq<bv8>>,
                    ivRead: Result<seq<bv8>>, c: Crypto, j: Json)
    : (r: Result<seq<bv8>>)
    requires saltRead.Ok? ==> |saltRead.value| == SaltSize
    requires ivRead.Ok? ==> |ivRead.value| == IvSize
    ensures SaveEnvelope(password, accounts, saltRead, ivRead, c, j).Fail? ==>
      r == Fail(SaveEnvelope(password, accounts, saltRead, ivRead, c, j).err)
    ensures SaveEnvelope(password, accounts, saltRead, ivRead, c, j).Ok? ==>
      r == j.marshalEnvelope(SaveEnvelope(password, accounts, saltRead, ivRead, c, j).value)
  {
    var env :- SaveEnvelope(password, accounts, saltRead, ivRead, c, j);
    j.marshalEnvelope(env)
  }

  /** What `Save` writes, `unlockVault` with the same password reads back,
      given JSON that reads back what it writes and a PBKDF2 that gives the
      requested length. */
  lemma SaveThenUnlock(password: seq<bv8>, accounts: seq<AccountInfo>, saltRead: Result<seq<bv8>>,
                       ivRead: Result<seq<bv8>>, c: Crypto, j: Json)
    requires saltRead.Ok? ==> |saltRead.value| == SaltSize
    requires ivRead.Ok? ==> |ivRead.value| == IvSize
    requires DerivesRequestedLength(c)
    requires SaveFile(password, accounts, saltRead, ivRead, c, j).Ok?
    requires forall e :: j.marshalEnvelope(e).Ok? ==> j.unmarshalEnvelope(j.marshalEnvelope(e).value) == Ok(e)
    requires forall a :: j.marshalAccounts(a).Ok? ==> j.unmarshalAccounts(j.marshalAccounts(a).value) == Ok(a)
    ensures Unlock(password, SaveFile(password, accounts, saltRead, ivRead, c, j), c, j) == Ok(accounts)
  {
    var env := SaveEnvelope(password, accounts, saltRead, ivRead, c, j).value;
    var key := DerivedKey(c, password, env.salt);
    CtrTwice(c, key, env.iv, j.marshalAccounts(accounts).value);
  }

  /** With JSON that reads back what it writes, a vault saved under one
      password is refused under any password whose HMAC differs, before
      anything is decrypted. */
  lemma WrongPasswordRefused(password: seq<bv8>, other: seq<bv8>, accounts: seq<AccountInfo>,
                             saltRead: Result<seq<bv8>>, ivRead: Result<seq<bv8>>, c: Crypto, j: Json)
    requires saltRead.Ok? ==> |saltRead.value| == SaltSize
    requires ivRead.Ok? ==> |ivRead.value| == IvSize
    requires SaveEnvelope(password, accounts, saltRead, ivRead, c, j).Ok?
    requires var env := SaveEnvelope(password, accounts, saltRead, ivRead, c, j).value;
      c.hmac(other, env.data) != c.hmac(password, env.data)
    requires SaveFile(password, accounts, saltRead, ivRead, c, j).Ok?
    requires forall e :: j.marshalEnvelope(e).Ok? ==> j.unmarshalEnvelope(j.marshalEnvelope(e).value) == Ok(e)
    ensures Unlock(other, SaveFile(password, accounts, saltRead, ivRead, c, j), c, j) == Fail(IncorrectPassword)
  {
  }

  /** The accounts without those at `addr`, in their original order. */
  function Without(s: seq<AccountInfo>, addr: string): (r: seq<AccountInfo>)
    ensures |r| <= |s|
    ensures |r| == |s| <==> forall i :: 0 <= i < |s| ==> s[i].address != addr
  {
    if s == [] then []
    else Without(s[..|s| - 1], addr) + (if s[|s| - 1].address != addr then [s[|s| - 1]] else [])
  }

  /** Removal keeps exactly the accounts at other addresses. */
  lemma {:induction false} WithoutMembers(s: seq<AccountInfo>, addr: string)
    ensures forall a :: a in Without(s, addr) <==> a in s && a.address != addr
  {
    if s != [] {
      WithoutMembers(s[..|s| - 1], addr);
      assert s == s[..|s| - 1] + [s[|s| - 1]];
    }
  }

  /** Removal works piece by piece, so it keeps the order of what remains. */
  lemma {:induction false} WithoutAppend(s: seq<AccountInfo>, t: seq<AccountInfo>, addr: string)
    ensures Without(s + t, addr) == Without(s, addr) + Without(t, addr)
    decreases |t|
  {
    if t == [] {
      assert s + t == s;
    } else {
      var u := t[..|t| - 1];
      assert (s + t)[..|s + t| - 1] == s + u;
      WithoutAppend(s, u, addr);
    }
  }

  /** Removing an address no account has changes nothing. */
  lemma {:induction false} WithoutAbsent(s: seq<AccountInfo>, addr: string)
    requires forall i :: 0 <= i < |s| ==> s[i].address != addr
    ensures Without(s, addr) == s
  {
    if s != [] {
      WithoutAbsent(s[..|s| - 1], addr);
      assert s == s[..|s| - 1] + [s[|s| - 1]];
    }
  }

  /** Removing twice is removing once. */
  lemma WithoutIdempotent(s: seq<AccountInfo>, addr: string)
    ensures Without(Without(s, addr), addr) == Without(s, addr)
  {
    var r := Without(s, addr);
    WithoutMembers(s, addr);
    assert forall i :: 0 <= i < |r| ==> r[i] in r;
    WithoutAbsent(r, addr);
  }

  /** Adding an account and removing its address leaves the accounts at
      other addresses as they were. */
  lemma AddThenRemove(s: seq<AccountInfo>, a: AccountInfo)
    ensures Without(s + [a], a.address) == Without(s, a.address)
  {
    WithoutAppend(s, [a], a.address);
    assert [a][..0] == [];
  }

  class Vault {
    var accounts: seq<AccountInfo>
    const password: seq<bv8>
    const path: string

    /** The vault `New` starts from: no accounts yet. */
    constructor (password: seq<bv8>, path: string)
      ensures accounts == [] && this.password == password && this.path == path
    {
      accounts := [];
      this.password := password;
      this.path := path;
    }

    /** unlockVault(): on success the accounts are those in the file; on any
        failure they are left as they were. */
    method UnlockVault(file: Result<seq<bv8>>, c: Crypto, j: Json) returns (err: Option<Error>)
      modifies this
      ensures Unlock(password, file, c, j).Ok? ==> err.None? && accounts == Unlock(password, file, c, j).value
      ensures Unlock(password, file, c, j).Fail? ==>
        err == Some(Unlock(password, file, c, j).err) && accounts == old(accounts)
    {
      var r := Unlock(password, file, c, j);
      if r.Fail? {
        return Some(r.err);
      }
      accounts := r.value;
      return None;
    }

    /** AddAccount(account): the account goes last. */
    method AddAccount(account: AccountInfo)
      modifies this
      ensures accounts == old(accounts) + [account]
    {
      accounts := accounts + [account];
    }

    /** RemoveAccount(addr): compacts the list in place, copying each account
        at another address down to the write index `k`. */
    method RemoveAccount(addr: string)
      modifies this
      ensures accounts == Without(old(accounts), addr)
    {
      ghost var original := accounts;
      var k := 0;
      for i := 0 to |accounts|
        invariant |accounts| == |original|
        invariant k <= i
        invariant forall j :: i <= j < |accounts| ==> accounts[j] == original[j]
        invariant accounts[..k] == Without(original[..i], addr)
      {
        var acc := accounts[i];
        assert acc == original[i];
        assert original[..i + 1][..i] == original[..i];
        if acc.address != addr {
          accounts := accounts[k := acc];
          k := k + 1;
        }
      }
      assert original[..|original|] == original;
      accounts := accounts[..k];
    }

    /** GetAccountInfo(addr): the first account at `addr`. */
    method GetAccountInfo(addr: string) returns (r: Result<AccountInfo>)
      ensures r.Fail? <==> forall i :: 0 <= i < |accounts| ==> accounts[i].address != addr
      ensures r.Fail? ==> r.err == NotFound
      ensures r.Ok? ==>
        exists i :: (0 <= i < |accounts| && accounts[i] == r.value && accounts[i].address == addr &&
                     forall j :: 0 <= j < i ==> accounts[j].address != addr)
    {
      for i := 0 to |accounts|
        invariant forall j :: 0 <= j < i ==> accounts[j].address != addr
      {
        if accounts[i].address == addr {
          return Ok(accounts[i]);
        }
      }
      return Fail(NotFound);
    }

    /** HasAccount(addr): whether some account is at `addr`. */
    method HasAccount(addr: string) returns (b: bool)
      ensures b <==> exists i :: 0 <= i < |accounts| && accounts[i].address == addr
    {
      var r := GetAccountInfo(addr);
      b := r.Ok?;
    }

    /** Save(): `write` is `writeFileData` on the vault's path. Nothing in the
        vault changes. */
    method Save(saltRead: Result<seq<bv8>>, ivRead: Result<seq<bv8>>, c: Crypto, j: Json,
                write: seq<bv8> -> Option<Error>)
      returns (err: Option<Error>)
      requires saltRead.Ok? ==> |saltRead.value| == SaltSize
      requires ivRead.Ok? ==> |ivRead.value| == IvSize
      ensures SaveFile(password, accounts, saltRead, ivRead, c, j).Fail? ==>
        err == Some(SaveFile(password, accounts, saltRead, ivRead, c, j).err)
      ensures SaveFile(password, accounts, saltRead, ivRead, c, j).Ok? ==>
        err == write(SaveFile(password, accounts, saltRead, ivRead, c, j).value)
    {
      var data := SaveFile(password, accounts, saltRead, ivRead, c, j);
      if data.Fail? {
        return Some(data.err);
      }
      err := write(data.value);
    }
  }
}
