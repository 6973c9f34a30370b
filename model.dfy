/**
 * The records decoded from the SpaceX and NASA responses (package `model`).
 * Float-valued measurements (rocket height/diameter/mass, asteroid diameters)
 * are not part of the model; launch dates are opaque strings.
 */
module Model {
  import opened Wrappers

  /** A launch. `success` is Go's `*bool`: None is "no verdict yet". */
  datatype Launch = Launch(
    id: string,
    flightNumber: int,
    name: string,
    date: string,
    success: Option<bool>,
    crew: seq<string>,
    rocketId: string,
    details: string,
    launchpadId: string)

  datatype Launchpad = Launchpad(
    id: string,
    name: string,
    locality: string,
    latitude: real,
    longitude: real,
    status: string,
    details: string)

  datatype Crew = Crew(id: string, name: string, agency: string, image: string, status: string)

  datatype Rocket = Rocket(
    id: string,
    name: string,
    costPerLaunch: int,
    successRate: int,
    country: string,
    company: string,
    firstFlight: string,
    description: string)

  datatype NasaEarthEvent = NasaEarthEvent(id: string, title: string, description: string)

  /** The `{events: [...]}` envelope returned by the EONET events endpoint. */
  datatype NasaEarth = NasaEarth(events: seq<NasaEarthEvent>)

  datatype Asteroid = Asteroid(id: string, name: string, hazardous: bool)

  /** The near-Earth-object feed: a reported count and the asteroids bucketed by date. */
  datatype NasaAsteroid = NasaAsteroid(elementCount: int, nearEarthObjects: map<string, seq<Asteroid>>)

  /** The `{docs: [...]}` envelope returned by the launches query endpoint. */
  datatype LaunchDocs = LaunchDocs(docs: seq<Launch>)

  /** The key each accessor re-indexes its collection by. */
  function RocketKey(r: Rocket): string { r.id }
  function CrewKey(c: Crew): string { c.id }
  function LaunchpadKey(p: Launchpad): string { p.id }
}
