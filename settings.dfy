/** The integer parameters the game logic reads from its settings object.
    Sizes are non-negative; speeds, counts and points are plain integers. */
module GameSettings {

  datatype Settings = Settings(
    screenW: nat,
    screenH: nat,
    shipW: nat,
    shipH: nat,
    alienW: nat,
    alienH: nat,
    fleetDirection: int,
    shipSpeed: int,
    startingShipCount: int,
    bulletSpeed: int,
    bulletW: nat,
    bulletH: nat,
    bulletAmount: int,
    fleetSpeed: int,
    fleetDropSpeed: int,
    alienPoints: int)

  /** The values a fresh game starts with. */
  const DEFAULTS: Settings := Settings(
    screenW := 1265, screenH := 625,
    shipW := 30, shipH := 50,
    alienW := 40, alienH := 40,
    fleetDirection := 1,
    shipSpeed := 7, startingShipCount := 3,
    bulletSpeed := 10, bulletW := 30, bulletH := 60, bulletAmount := 5,
    fleetSpeed := 1, fleetDropSpeed := 40, alienPoints := 100)
}
