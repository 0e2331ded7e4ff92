/** What the allow-list queries return, row by row. */
module Queries {
  import opened Common
  import opened Naming
  import opened Tables

  lemma ConsumersForProductMembers(db: Db, product: nat)
    requires Sound(db)
    ensures forall x :: x in db.ConsumersForProduct(product) <==>
              exists a: nat :: db.Active(a, product) && a in db.creds && x == ConsumerName(a)
  {
    CollectMembers(db.nextApp, db.ConsumerRow(product));
    forall x ensures x in db.ConsumersForProduct(product) <==>
                     exists a: nat :: db.Active(a, product) && a in db.creds && x == ConsumerName(a)
    {
      if a: nat :| db.Active(a, product) && a in db.creds && x == ConsumerName(a) {
        assert a < db.nextApp && db.ConsumerRow(product)(a) == Some(x);
      }
    }
  }

  lemma SandboxConsumersForProductMembers(db: Db, product: nat)
    requires Sound(db)
    ensures forall x :: x in db.SandboxConsumersForProduct(product) <==>
              exists a: nat ::
                db.Active(a, product) && a in db.creds && db.creds[a].sandboxKey != "" && x == ConsumerName(a)
  {
    CollectMembers(db.nextApp, db.SandboxRow(product));
    forall x ensures x in db.SandboxConsumersForProduct(product) <==>
                     exists a: nat ::
                       db.Active(a, product) && a in db.creds && db.creds[a].sandboxKey != "" && x == ConsumerName(a)
    {
      if a: nat :| db.Active(a, product) && a in db.creds && db.creds[a].sandboxKey != "" && x == ConsumerName(a) {
        assert a < db.nextApp && db.SandboxRow(product)(a) == Some(x);
      }
    }
  }

  lemma OAuthClientsForProductMembers(db: Db, product: nat)
    requires Sound(db)
    ensures forall x :: x in db.OAuthClientsForProduct(product) <==>
              exists a: nat ::
                db.Active(a, product) && a in db.apps && db.apps[a].clientId != "" && x == db.apps[a].clientId
  {
    CollectMembers(db.nextApp, db.OAuthRow(product));
    forall x ensures x in db.OAuthClientsForProduct(product) <==>
                     exists a: nat ::
                       db.Active(a, product) && a in db.apps && db.apps[a].clientId != "" && x == db.apps[a].clientId
    {
      if a: nat :| db.Active(a, product) && a in db.apps && db.apps[a].clientId != "" && x == db.apps[a].clientId {
        assert a < db.nextApp && db.OAuthRow(product)(a) == Some(x);
      }
    }
  }

  lemma OAuthProductsForAppMembers(db: Db, app: nat)
    requires Sound(db)
    ensures forall p: nat :: p in db.OAuthProductsForApp(app) <==> db.Active(app, p) && db.products[p].auth.OAuth2?
  {
    CollectMembers(db.nextProduct, db.OAuthProductRow(app));
    forall p: nat ensures p in db.OAuthProductsForApp(app) <==> db.Active(app, p) && db.products[p].auth.OAuth2? {
      if db.Active(app, p) && db.products[p].auth.OAuth2? {
        assert db.OAuthProductRow(app)(p) == Some(p);
      }
    }
  }

  lemma SandboxProductsForAppMembers(db: Db, app: nat)
    requires Sound(db)
    ensures forall p: nat :: p in db.SandboxProductsForApp(app) <==>
              db.Active(app, p) && db.products[p].sandboxUpstream != ""
  {
    CollectMembers(db.nextProduct, db.SandboxProductRow(app));
    forall p: nat
      ensures p in db.SandboxProductsForApp(app) <==> db.Active(app, p) && db.products[p].sandboxUpstream != ""
    {
      if db.Active(app, p) && db.products[p].sandboxUpstream != "" {
        assert db.SandboxProductRow(app)(p) == Some(p);
      }
    }
  }

  lemma SubscriptionsForAppMembers(db: Db, app: nat)
    requires Sound(db)
    ensures forall p: nat :: p in db.SubscriptionsForApp(app) <==> SubKey(app, p) in db.subs
  {
    CollectMembers(db.nextProduct, db.SubscribedRow(app));
    forall p: nat ensures p in db.SubscriptionsForApp(app) <==> SubKey(app, p) in db.subs {
      if SubKey(app, p) in db.subs {
        assert db.SubscribedRow(app)(p) == Some(p);
      }
    }
  }

  lemma CountIsZero(db: Db, product: nat)
    requires Sound(db)
    ensures db.CountActiveSubscriptions(product) == 0 <==> forall a: nat :: !db.Active(a, product)
  {
    var rows := Collect(db.nextApp, db.ActiveRow(product));
    CollectMembers(db.nextApp, db.ActiveRow(product));
    if rows != [] {
      assert rows[0] in rows;
    }
    if a: nat :| db.Active(a, product) {
      assert db.ActiveRow(product)(a) == Some(a);
      assert a in rows;
    }
  }

  lemma PlanConsumersMembers(db: Db, plan: nat)
    ensures forall c :: c in db.ConsumersForPlan(plan) ==> c.app in db.creds && c.key == db.creds[c.app].key
    ensures forall c :: c in db.SandboxConsumersForPlan(plan) ==>
              c.app in db.creds && c.key == db.creds[c.app].sandboxKey && c.key != ""
  {
    CollectMembers(db.nextApp, db.PlanRow(plan));
    CollectMembers(db.nextApp, db.SandboxPlanRow(plan));
  }
}
