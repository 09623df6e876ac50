/** One store in both roles: without a backup store the service uses the primary one for both copies. No
    reading looks at the head object of the backup copy, so whether a head put shows there makes no difference. */
module HistoryShared {
  import opened Wrappers
  import opened HistoryModel
  import opened HistoryRecovery
  import opened HistoryAppend

  /** Equal records off the head; entity tags may differ. */
  ghost predicate SameBodies(x: Store, y: Store) {
    forall key: Key :: key != HeadKey ==>
      && (x.Has(key) <==> y.Has(key))
      && (x.Has(key) ==> x.objects[key].body == y.objects[key].body)
  }

  lemma StepIgnoresHead(ctx: Context, side: Store, side': Store, primary: Store, backup: Store, backup': Store,
                        head: HistoryHead, sequence: nat, previous: Link)
    requires SameBodies(side, side') && SameBodies(backup, backup')
    ensures ReceiptStep(ctx, side, primary, backup, head, sequence, previous)
         == ReceiptStep(ctx, side', primary, backup', head, sequence, previous)
  {
    assert side.Has(ReceiptKey(sequence)) <==> side'.Has(ReceiptKey(sequence));
    if side.Has(ReceiptKey(sequence)) {
      var body := side.objects[ReceiptKey(sequence)].body;
      if body.Receipt? && body.operationId.Some? && ReadEvent(primary, body.operationId.value).Some? {
        var key := EventKey(ReadEvent(primary, body.operationId.value).value.operationId);
        assert backup.Has(key) <==> backup'.Has(key);
      }
    }
  }

  lemma {:induction false} WalkIgnoresHead(ctx: Context, side: Store, side': Store, primary: Store, backup: Store,
                                           backup': Store, head: HistoryHead, sequence: nat, previous: Link)
    requires SameBodies(side, side') && SameBodies(backup, backup') && sequence <= head.sequence + 1
    ensures ReceiptWalk(ctx, side, primary, backup, head, sequence, previous)
         == ReceiptWalk(ctx, side', primary, backup', head, sequence, previous)
    decreases head.sequence + 1 - sequence
  {
    if sequence <= head.sequence {
      StepIgnoresHead(ctx, side, side', primary, backup, backup', head, sequence, previous);
      var step := ReceiptStep(ctx, side, primary, backup, head, sequence, previous);
      if step.Some? {
        WalkIgnoresHead(ctx, side, side', primary, backup, backup', head, sequence + 1, step.value);
      }
    }
  }

  lemma SideIgnoresHead(ctx: Context, side: Store, side': Store, primary: Store, backup: Store, backup': Store,
                        head: HistoryHead)
    requires SameBodies(side, side') && SameBodies(backup, backup')
    ensures CatalogSideOk(ctx, side, primary, backup, head) == CatalogSideOk(ctx, side', primary, backup', head)
  {
    WalkIgnoresHead(ctx, side, side', primary, backup, backup', head, 0, GenesisLink(ctx));
    assert side.Has(CatalogKey) <==> side'.Has(CatalogKey);
    forall key ensures key in side.ReceiptKeys() <==> key in side'.ReceiptKeys() {
      assert key != HeadKey ==> (side.Has(key) <==> side'.Has(key));
    }
    assert side.ReceiptKeys() == side'.ReceiptKeys();
  }

  /** Verification reads the backup copy off its head only. */
  lemma VerifiedIgnoresHead(ctx: Context, primary: Store, backup: Store, backup': Store)
    requires SameBodies(backup, backup')
    ensures VerifiedHead(ctx, primary, backup) == VerifiedHead(ctx, primary, backup')
  {
    var head := StoredHead(ctx, primary);
    if head.Some? {
      SideIgnoresHead(ctx, primary, primary, primary, backup, backup', head.value);
      SideIgnoresHead(ctx, backup, backup', primary, backup, backup', head.value);
    }
  }

  /** So do the answers that rest on it. */
  lemma AnswersIgnoreHead(ctx: Context, primary: Store, backup: Store, backup': Store, event: HistoryEvent)
    requires SameBodies(backup, backup')
    ensures Resolve(ctx, primary, backup, event.operationId).result == Resolve(ctx, primary, backup', event.operationId).result
    ensures Confirm(ctx, primary, backup, event).result == Confirm(ctx, primary, backup', event).result
  {
    VerifiedIgnoresHead(ctx, primary, backup, backup');
  }

  /** Writing one record acts alike on copies that differ in their head only. */
  lemma PutIgnoresHead(x: Store, y: Store, key: Key, body: Body)
    requires SameBodies(x, y) && key != HeadKey
    ensures PutCopy(x, key, body).Some? <==> PutCopy(y, key, body).Some?
    ensures PutCopy(x, key, body).Some? ==> SameBodies(PutCopy(x, key, body).value, PutCopy(y, key, body).value)
  {
    assert x.Has(key) <==> y.Has(key);
  }

  /** Writing both copies of a record, where the backup copy may show the head. */
  lemma BothIgnoreHead(primary: Store, backup: Store, backup': Store, key: Key, body: Body)
    requires SameBodies(backup, backup') && key != HeadKey
    ensures var put, put' := PutImmutable(primary, backup, key, body), PutImmutable(primary, backup', key, body);
            put.primary == put'.primary && put.result == put'.result && SameBodies(put.backup, put'.backup)
  {
    PutIgnoresHead(backup, backup', key, body);
  }

  /** A record that is there is left as it is: the second of two puts into one store does nothing. */
  lemma PutTwice(store: Store, key: Key, body: Body)
    requires PutCopy(store, key, body).Some?
    ensures var put := PutCopy(store, key, body).value; PutCopy(put, key, body) == Some(put)
  {
  }
}
