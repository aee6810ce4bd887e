/** Buildings and their destruction (game/buildings.rs): the `Building`
    component with its builder, and the `Destructible` health pool. The city
    generators are not part of this model. */
module Buildings {
  import opened Core

  datatype BuildingStyle = Skyscraper | Industrial | Residential | Office

  /** The drawable building description (engine/rendering/mock_assets.rs). */
  datatype BuildingAsset = BuildingAsset(position: Vec2, size: Vec2, baseColor: Color, windows: seq<Rect>,
                                         style: BuildingStyle)

  datatype Building = Building(asset: BuildingAsset, destructible: bool, health: Option<real>)

  /** `Building::new`: scenery that cannot be destroyed. */
  function NewBuilding(asset: BuildingAsset): (b: Building)
    ensures b.asset == asset && !b.destructible && b.health.None?
  {
    Building(asset, false, None)
  }

  /** The builder `.destructible(health)`. */
  function MakeDestructible(b: Building, health: real): (r: Building)
    ensures r.destructible && r.health == Some(health) && r.asset == b.asset
  {
    b.(destructible := true, health := Some(health))
  }

  /** A building has a health value exactly when it is destructible, for
      every building the two builders make, and the builder can be applied
      again to change the health. */
  lemma {:induction false} HealthOnlyWhenDestructible(asset: BuildingAsset, h1: real, h2: real)
    ensures var b := NewBuilding(asset);
            (b.destructible <==> b.health.Some?) &&
            (MakeDestructible(b, h1).destructible <==> MakeDestructible(b, h1).health.Some?) &&
            MakeDestructible(MakeDestructible(b, h1), h2) == MakeDestructible(b, h2)
  {
  }

  class Destructible {
    var maxHealth: real
    var currentHealth: real
    var debrisParticles: nat

    /** `Destructible::new`: at full health, with 10 debris particles. */
    constructor (health: real)
      ensures maxHealth == health && currentHealth == health && debrisParticles == 10
    {
      maxHealth := health;
      currentHealth := health;
      debrisParticles := 10;
    }

    /** `take_damage`: health drops by the damage, never below 0; the result
        says whether the building is destroyed. */
    method TakeDamage(damage: real) returns (destroyed: bool)
      modifies this
      ensures currentHealth == Max(old(currentHealth) - damage, 0.0)
      ensures destroyed <==> currentHealth == 0.0
      ensures destroyed <==> old(currentHealth) <= damage
      ensures maxHealth == old(maxHealth) && debrisParticles == old(debrisParticles)
    {
      currentHealth := Max(currentHealth - damage, 0.0);
      destroyed := currentHealth <= 0.0;
    }

    /** `health_percentage`: the remaining fraction, between 0 and 1 while
        the health is within its pool. */
    function HealthPercentage(): (p: real)
      reads this
      requires maxHealth != 0.0
      ensures p * maxHealth == currentHealth
      ensures maxHealth > 0.0 && 0.0 <= currentHealth <= maxHealth ==> 0.0 <= p <= 1.0
    {
      currentHealth / maxHealth
    }
  }

  /** Damage adds up: two hits leave the building as one hit of the summed
      damage would, and a destroyed building stays destroyed. */
  method TwoHits(d: Destructible, a: real, b: real) returns (first: bool, second: bool)
    requires 0.0 <= d.currentHealth && 0.0 <= a && 0.0 <= b
    modifies d
    ensures d.currentHealth == Max(old(d.currentHealth) - (a + b), 0.0)
    ensures first ==> second
    ensures second <==> old(d.currentHealth) <= a + b
  {
    first := d.TakeDamage(a);
    second := d.TakeDamage(b);
  }
}
