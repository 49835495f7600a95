/** The user wallet handlers over the wallet collection: create-if-absent,
    lookup by owner, balance increment and delete by id. */
module Wallets {
  import opened Common

  /** A wallet document: its owner, its balance and its transaction ids. */
  datatype Wallet = Wallet(userId: Id, balance: int, transactions: seq<Id>)

  /** The wallet Wallet.create({ userId }) stores: the schema's defaults for
      the other fields, taken here as a zero balance and no transactions. */
  function NewWallet(userId: Id): (w: Wallet)
    ensures w.userId == userId && w.balance == 0 && w.transactions == []
  {
    Wallet(userId, 0, [])
  }

  /** No user owns two wallets. */
  predicate OneWalletPerUser(wallets: map<Id, Wallet>)
  {
    forall a, b :: a in wallets && b in wallets && wallets[a].userId == wallets[b].userId ==> a == b
  }

  predicate HasWallet(wallets: map<Id, Wallet>, userId: Id)
  {
    exists id :: id in wallets && wallets[id].userId == userId
  }

  /** Adding a wallet for a user who has none keeps at most one wallet per user. */
  lemma {:induction false} AddingFirstWalletKeepsOnePerUser(wallets: map<Id, Wallet>, newId: Id, userId: Id)
    requires OneWalletPerUser(wallets) && !HasWallet(wallets, userId) && newId !in wallets
    ensures OneWalletPerUser(wallets[newId := NewWallet(userId)])
    ensures HasWallet(wallets[newId := NewWallet(userId)], userId)
  {
    var after := wallets[newId := NewWallet(userId)];
    forall a, b | a in after && b in after && after[a].userId == after[b].userId
      ensures a == b
    {
      if a != newId && b != newId {
        assert wallets[a].userId == wallets[b].userId;
      }
    }
    assert after[newId].userId == userId;
  }

  class WalletStore {
    var wallets: map<Id, Wallet>

    constructor ()
      ensures wallets == map[]
    {
      wallets := map[];
    }

    /** createWallet for the user `userId`; `newId` is the id the store gives
        the new document. */
    method CreateWallet(userId: Id, newId: Id) returns (r: Result<Reply<Wallet>>)
      requires newId !in wallets
      modifies this`wallets
      ensures HasWallet(old(wallets), userId) ==>
        r == Err(MessageOnly("Wallet already exists for this user")) && wallets == old(wallets)
      ensures !HasWallet(old(wallets), userId) ==>
        r == Ok(Reply(201, "Wallet created successfully", NewWallet(userId)))
        && wallets == old(wallets)[newId := NewWallet(userId)]
      ensures OneWalletPerUser(old(wallets)) ==> OneWalletPerUser(wallets)
    {
      if HasWallet(wallets, userId) {
        return Err(MessageOnly("Wallet already exists for this user"));
      }
      if OneWalletPerUser(wallets) {
        AddingFirstWalletKeepsOnePerUser(wallets, newId, userId);
      }
      wallets := wallets[newId := NewWallet(userId)];
      r := Ok(Reply(201, "Wallet created successfully", NewWallet(userId)));
    }

    /** getWallet: a wallet of the user, if there is one. */
    method GetWallet(userId: Id) returns (r: Result<Reply<Wallet>>)
      ensures r.Ok? <==> HasWallet(wallets, userId)
      ensures r.Err? ==> r == Err(MessageOnly("Wallet not found"))
      ensures r.Ok? ==> r.value.status == 200 && r.value.message == "Wallet fetched successfully"
                        && r.value.data.userId == userId && r.value.data in wallets.Values
    {
      if !HasWallet(wallets, userId) {
        return Err(MessageOnly("Wallet not found"));
      }
      var id :| id in wallets && wallets[id].userId == userId;
      r := Ok(Reply(200, "Wallet fetched successfully", wallets[id]));
    }

    /** updateWalletBalance: `$inc` adds `amount`, of any sign and size, to
        the balance; the owner is not checked. */
    method UpdateWalletBalance(walletId: Id, amount: int, isValidObjectId: Id -> bool) returns (r: Result<Reply<Wallet>>)
      modifies this`wallets
      ensures !isValidObjectId(walletId) ==> r == Err(MessageOnly("Invalid wallet id")) && wallets == old(wallets)
      ensures isValidObjectId(walletId) && walletId !in old(wallets) ==>
        r == Err(MessageOnly("Wallet not found")) && wallets == old(wallets)
      ensures isValidObjectId(walletId) && walletId in old(wallets) ==>
        var updated := old(wallets)[walletId].(balance := old(wallets)[walletId].balance + amount);
        r == Ok(Reply(200, "Wallet balance updated successfully", updated)) && wallets == old(wallets)[walletId := updated]
      ensures OneWalletPerUser(old(wallets)) ==> OneWalletPerUser(wallets)
    {
      if !isValidObjectId(walletId) {
        return Err(MessageOnly("Invalid wallet id"));
      }
      if walletId !in wallets {
        return Err(MessageOnly("Wallet not found"));
      }
      var wallet := wallets[walletId];
      wallet := wallet.(balance := wallet.balance + amount);
      wallets := wallets[walletId := wallet];
      r := Ok(Reply(200, "Wallet balance updated successfully", wallet));
    }

    /** deleteWallet: removes exactly that wallet; the owner is not checked. */
    method DeleteWallet(walletId: Id, isValidObjectId: Id -> bool) returns (r: Result<Reply<Wallet>>)
      modifies this`wallets
      ensures !isValidObjectId(walletId) ==> r == Err(MessageOnly("Invalid wallet id")) && wallets == old(wallets)
      ensures isValidObjectId(walletId) && walletId !in old(wallets) ==>
        r == Err(MessageOnly("Wallet not found")) && wallets == old(wallets)
      ensures isValidObjectId(walletId) && walletId in old(wallets) ==>
        r == Ok(Reply(200, "Wallet deleted successfully", old(wallets)[walletId])) && wallets == old(wallets) - {walletId}
      ensures OneWalletPerUser(old(wallets)) ==> OneWalletPerUser(wallets)
    {
      if !isValidObjectId(walletId) {
        return Err(MessageOnly("Invalid wallet id"));
      }
      if walletId !in wallets {
        return Err(MessageOnly("Wallet not found"));
      }
      var wallet := wallets[walletId];
      wallets := wallets - {walletId};
      r := Ok(Reply(200, "Wallet deleted successfully", wallet));
    }
  }

  /** A second delete of the same wallet fails. */
  method DeleteWalletTwice(store: WalletStore, walletId: Id, isValidObjectId: Id -> bool)
    returns (first: Result<Reply<Wallet>>, second: Result<Reply<Wallet>>)
    modifies store
    ensures first.Ok? ==> second == Err(MessageOnly("Wallet not found"))
  {
    first := store.DeleteWallet(walletId, isValidObjectId);
    second := store.DeleteWallet(walletId, isValidObjectId);
  }
}
