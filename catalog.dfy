/** The static catalog the customer app offers, in declaration order. */
module Catalog {
  import opened Types

  const RegularCleaning: Service := Service(
    "c1", "Regular Cleaning", Cleaning, "Weekly home maintenance.", 18.0, Hour,
    "https://images.unsplash.com/photo-1581578731548-c64695ce6958?auto=format&fit=crop&q=80&w=400",
    Some(true), None)

  const LaundryAndIroning: Service := Service(
    "l1", "Laundry & Ironing", Laundry, "Collection & delivery next day.", 25.0, Fixed,
    "https://images.unsplash.com/photo-1545173168-9f1947eebb7f?auto=format&fit=crop&q=80&w=400",
    Some(true), None)

  const BoilerService: Service := Service(
    "m1", "Boiler Service", Maintenance, "Gas Safe registered annual check.", 85.0, Fixed,
    "https://images.unsplash.com/photo-1585011664466-b7bbe92f34ef?auto=format&fit=crop&q=80&w=400",
    None, None)

  const ApplianceRepair: Service := Service(
    "m2", "Appliance Repair", Maintenance, "Washing machines, fridges, ovens.", 60.0, Fixed,
    "https://images.unsplash.com/photo-1581092918056-0c4c3acd3789?auto=format&fit=crop&q=80&w=400",
    None, None)

  const VerifiedChildcare: Service := Service(
    "ch1", "Verified Childcare", Childcare, "Enhanced DBS checked nannies.", 18.0, Hour,
    "https://images.unsplash.com/photo-1587653263995-422546a72569?auto=format&fit=crop&q=80&w=400",
    None, Some(true))

  const MathsTutoring: Service := Service(
    "t1", "Maths Tutoring", Tutoring, "GCSE & A-Level specialists.", 35.0, Hour,
    "https://images.unsplash.com/photo-1503676260728-1c00da07bb5e?auto=format&fit=crop&q=80&w=400",
    None, None)

  const FullValet: Service := Service(
    "v1", "Full Valet", CarCare, "Premium mobile car cleaning.", 45.0, Fixed,
    "https://images.unsplash.com/photo-1520340356584-f9917d1eea6f?auto=format&fit=crop&q=80&w=400",
    None, None)

  const PersonalErrands: Service := Service(
    "err1", "Personal Errands", Concierge, "Shopping, pickups, or waiting.", 22.0, Hour,
    "https://images.unsplash.com/photo-1534452286302-2f5630b6039e?auto=format&fit=crop&q=80&w=400",
    None, None)

  const LondonServices: seq<Service> := [
    RegularCleaning, LaundryAndIroning, BoilerService, ApplianceRepair,
    VerifiedChildcare, MathsTutoring, FullValet, PersonalErrands
  ]
}
