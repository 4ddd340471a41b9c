/** internal/account/file_account.go: accounts kept as directories on disk,
    one per hash address, holding the account's public key and its boxes.
    The directory tree is a map from address to what its directory holds;
    the outcome of each file-system call is passed in. */
module FileAccount {
  import opened Common

  /** What an account directory holds: the stored public key and the boxes
      created in it. */
  datatype AccountDir = AccountDir(key: Option<string>, boxes: set<int>)

  /** The outcomes of the file-system calls `Create` makes: `os.MkdirAll`,
      `StoreKey`, `CreateBox` per box, and the `os.RemoveAll` of the
      clean-up. */
  datatype Outcomes = Outcomes(
    mkdir: Option<Error>,
    storeKey: Option<Error>,
    createBox: int -> Option<Error>,
    removeAll: Option<Error>)

  /** Every part of the group (the key and each box) succeeds. */
  predicate PartsSucceed(o: Outcomes, boxes: seq<int>)
  {
    o.storeKey.None? && forall i :: 0 <= i < |boxes| ==> o.createBox(boxes[i]).None?
  }

  /** `e` is the error of some failing part. */
  predicate PartError(o: Outcomes, boxes: seq<int>, e: Error)
  {
    o.storeKey == Some(e) || exists i :: 0 <= i < |boxes| && o.createBox(boxes[i]) == Some(e)
  }

  class FileRepo {
    var accounts: map<string, AccountDir>
    /** `MandatoryBoxes`, the boxes every account has. */
    const mandatoryBoxes: seq<int>

    constructor (mandatoryBoxes: seq<int>, accounts: map<string, AccountDir>)
      ensures this.mandatoryBoxes == mandatoryBoxes && this.accounts == accounts
    {
      this.mandatoryBoxes := mandatoryBoxes;
      this.accounts := accounts;
    }

    /** Exists(addr): whether the account's directory exists. */
    function Exists(addr: string): (b: bool)
      reads this
      ensures b <==> addr in accounts
    {
      addr in accounts
    }

    /** Delete(addr): `os.RemoveAll` of the account's directory; a failing
        removal is taken to leave it in place. */
    method Delete(addr: string, removeAll: Option<Error>) returns (err: Option<Error>)
      modifies this
      ensures err == removeAll
      ensures removeAll.None? ==> accounts == old(accounts) - {addr} && !Exists(addr)
      ensures removeAll.Some? ==> accounts == old(accounts)
    {
      if removeAll.None? {
        accounts := accounts - {addr};
      }
      return removeAll;
    }

    /** Create(addr, pubKey): make the directory, then store the key and
        create every mandatory box; when any of those fails, delete the
        directory again and return the failure. */
    method Create(addr: string, pubKey: string, o: Outcomes) returns (err: Option<Error>)
      modifies this
      ensures o.mkdir.Some? ==> err == o.mkdir && accounts == old(accounts)
      ensures o.mkdir.None? && PartsSucceed(o, mandatoryBoxes) ==>
        && err.None? && Exists(addr)
        && accounts[addr].key == Some(pubKey)
        && (forall i :: 0 <= i < |mandatoryBoxes| ==> mandatoryBoxes[i] in accounts[addr].boxes)
      ensures o.mkdir.None? && !PartsSucceed(o, mandatoryBoxes) ==>
        && err.Some? && PartError(o, mandatoryBoxes, err.value)
        && (o.removeAll.None? ==> !Exists(addr))
      ensures err.None? <==> o.mkdir.None? && PartsSucceed(o, mandatoryBoxes)
      ensures forall a :: a != addr ==> (a in accounts <==> a in old(accounts))
      ensures forall a :: a != addr && a in accounts ==> accounts[a] == old(accounts)[a]
    {
      if o.mkdir.Some? {
        return o.mkdir;
      }
      if addr !in accounts {
        accounts := accounts[addr := AccountDir(None, {})];
      }
      // The errgroup: every part runs; the join reports one failure.
      var failure: Option<Error> := None;
      if o.storeKey.Some? {
        failure := o.storeKey;
      } else {
        accounts := accounts[addr := accounts[addr].(key := Some(pubKey))];
      }
      for i := 0 to |mandatoryBoxes|
        invariant addr in accounts
        invariant failure.None? ==> accounts[addr].key == Some(pubKey)
        invariant forall j :: 0 <= j < i && o.createBox(mandatoryBoxes[j]).None? ==>
          mandatoryBoxes[j] in accounts[addr].boxes
        invariant failure.None? <==> o.storeKey.None? && forall j :: 0 <= j < i ==> o.createBox(mandatoryBoxes[j]).None?
        invariant failure.Some? ==> PartError(o, mandatoryBoxes, failure.value)
        invariant forall a :: a != addr ==> (a in accounts <==> a in old(accounts))
        invariant forall a :: a != addr && a in accounts ==> accounts[a] == old(accounts)[a]
      {
        var boxErr := o.createBox(mandatoryBoxes[i]);
        if boxErr.Some? {
          if failure.None? {
            failure := boxErr;
          }
        } else {
          var dir := accounts[addr];
          accounts := accounts[addr := dir.(boxes := dir.boxes + {mandatoryBoxes[i]})];
        }
      }
      if failure.Some? {
        var _ := Delete(addr, o.removeAll);
        return failure;
      }
      return None;
    }
  }
}
