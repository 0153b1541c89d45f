/** The location the page hands to the services: coordinates and a display name. */
module Locations {
  datatype Location = Location(lat: real, lng: real, city: string)
}
