/** The client through which a component calls the API server. */
module ApiClient {
  import opened ApiTypes
  import opened ApiStore

  /** The API client every component holds. */
  class Client {
    var world: World

    constructor (world: World)
      ensures this.world == world
    {
      this.world := world;
    }

    method Get(key: Key) returns (r: Reply<Object>)
      modifies this
      ensures (world, r) == ApiStore.Get(old(world), key)
    {
      var p := ApiStore.Get(world, key);
      world, r := p.0, p.1;
    }

    method Create(key: Key, owners: seq<OwnerRef>, body: Body) returns (r: Reply<Object>)
      requires body.BodyKind() == key.kind
      modifies this
      ensures (world, r) == ApiStore.Create(old(world), key, owners, body)
    {
      var p := ApiStore.Create(world, key, owners, body);
      world, r := p.0, p.1;
    }

    method Update(key: Key, version: nat, owners: seq<OwnerRef>, body: Body) returns (r: Reply<Object>)
      requires body.BodyKind() == key.kind
      modifies this
      ensures (world, r) == ApiStore.Update(old(world), key, version, owners, body)
    {
      var p := ApiStore.Update(world, key, version, owners, body);
      world, r := p.0, p.1;
    }

    method UpdateStatus(key: Key, version: nat, body: Body) returns (r: Reply<Object>)
      requires body.BodyKind() == key.kind
      modifies this
      ensures (world, r) == ApiStore.UpdateStatus(old(world), key, version, body)
    {
      var p := ApiStore.UpdateStatus(world, key, version, body);
      world, r := p.0, p.1;
    }
  }
}
