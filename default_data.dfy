/**
 * The canned collections a dashboard writes on a user's first visit. A generator reads the clock
 * several times; the model takes every such reading to be the same parameter `now`
 * (milliseconds), so ids, timestamps and dates are fixed functions of it. Dates are kept as
 * calendar days.
 */
module DefaultData {
  import opened Records

  const VegetablesTitle := "Fresh Vegetables (Carrots, Tomatoes, Lettuce)"
  const BakeryTitle := "Bread & Bakery Items"
  const CannedGoodsTitle := "Canned Goods & Non-Perishables"
  const GrainsTitle := "Rice & Grains"
  const DairyTitle := "Dairy Products (Milk, Cheese, Yogurt)"
  const FarmersMarket := "Downtown Farmers Market, 123 Main St"
  const CityBakery := "City Bakery, 456 Oak Avenue"
  const Warehouse := "Warehouse District, 789 Industrial Blvd"
  const WholesaleStore := "Wholesale Store, 321 Commerce St"
  const DairyFarm := "Local Dairy Farm, 555 Country Road"
  const VegetablesDescription := "Organic vegetables, slightly imperfect but perfectly edible. Great for soup kitchens."
  const BakeryDescription := "Fresh bread, rolls, and pastries from today's batch. Best consumed within 2-3 days."
  const CannedGoodsDescription := "Assorted canned vegetables, beans, and soups. Long shelf life."
  const GrainsDescription := "Bulk rice, lentils, and quinoa. Perfect for large-scale meal preparation."
  const DairyDescription := "Fresh dairy products. Must be refrigerated immediately."

  /** One seeded donation: the `k`-th id, available, in kilograms, offered by "Food Donor". */
  function SeededDonation(now: int, k: nat, foodType: string, quantity: string, expiresInDays: int,
                          location: string, description: string, createdAt: int): (d: Donation)
    ensures d.id == now - 1000 * k && d.quantity == quantity && d.createdAt == createdAt
    ensures d.status == "available" && d.unit == "kg" && d.donorName == "Food Donor"
    ensures d.expiryDate == OnDay(DayOf(now + expiresInDays * MsPerDay))
  {
    Donation(now - 1000 * k, foodType, quantity, "kg", OnDay(DayOf(now + expiresInDays * MsPerDay)),
             location, description, "available", createdAt, "Food Donor")
  }

  /** `getDefaultDonations(userId)`: five available donations. The user id is not used. */
  function DefaultDonations(userId: int, now: int): (r: seq<Donation>)
    ensures |r| == 5
    ensures forall d <- r :: d.status == "available" && d.unit == "kg" && d.donorName == "Food Donor"
    ensures forall i :: 0 <= i < |r| ==> r[i].id == now - 1000 * (i + 1)
    ensures forall d <- r :: now - 5 * MsPerDay <= d.createdAt <= now - MsPerDay
  {
    var twoDaysAgo := now - 2 * MsPerDay;
    var fiveDaysAgo := now - 5 * MsPerDay;
    [ SeededDonation(now, 1, VegetablesTitle, "15", 3, FarmersMarket, VegetablesDescription, twoDaysAgo),
      SeededDonation(now, 2, BakeryTitle, "8", 5, CityBakery, BakeryDescription, twoDaysAgo),
      SeededDonation(now, 3, CannedGoodsTitle, "25", 10, Warehouse, CannedGoodsDescription, fiveDaysAgo),
      SeededDonation(now, 4, GrainsTitle, "30", 7, WholesaleStore, GrainsDescription, fiveDaysAgo),
      SeededDonation(now, 5, DairyTitle, "12", 3, DairyFarm, DairyDescription, now - 1 * MsPerDay) ]
  }

  /** The seeded ids are pairwise distinct. */
  lemma DefaultDonationIdsDistinct(userId: int, now: int)
    ensures var r := DefaultDonations(userId, now);
            forall i, j :: 0 <= i < j < |r| ==> r[i].id != r[j].id
  {
  }

  /** The seed does not depend on the user. */
  lemma DefaultDonationsIgnoreUser(a: int, b: int, now: int)
    ensures DefaultDonations(a, now) == DefaultDonations(b, now)
  {
  }

  /** Every seeded donation expires three to ten days after the day of `now`. */
  lemma DefaultDonationExpiries(userId: int, now: int)
    ensures forall d <- DefaultDonations(userId, now) ::
      d.expiryDate.OnDay? && DayOf(now) + 3 <= d.expiryDate.day <= DayOf(now) + 10
  {
    DayOfShift(now, 3);
    DayOfShift(now, 5);
    DayOfShift(now, 7);
    DayOfShift(now, 10);
  }

  const SheltersPurpose := "Distribution to homeless shelter residents. Feeding 50+ people daily."
  const FamiliesPurpose := "Weekly food distribution program for low-income families."
  const SeniorsPurpose := "Stock for community kitchen serving daily meals to seniors."
  const ChildrenPurpose := "After-school snack program for underprivileged children."

  /** `getDefaultReceivedFood(userId)`: three completed requests and one approved one. */
  function DefaultReceivedFood(userId: int, now: int): (r: seq<Request>)
    ensures |r| == 4
    ensures forall i :: 0 <= i < 3 ==> r[i].status == "completed"
    ensures r[3].status == "approved"
    ensures forall q <- r :: q.unit == "kg" && q.seekerName == "Food Seeker"
    ensures forall i :: 0 <= i < |r| ==> r[i].id == now - 1000 * (i + 1)
  {
    var threeDaysAgo := now - 3 * MsPerDay;
    var fiveDaysAgo := now - 5 * MsPerDay;
    var sevenDaysAgo := now - 7 * MsPerDay;
    var oneDayAgo := now - 1 * MsPerDay;
    var r := [ Request(now - 1000, "Fresh Fruits & Vegetables", "20", "kg", "high",
              "Community Center, 100 Hope Street",
              SheltersPurpose,
              "completed", sevenDaysAgo, "Food Seeker"),
      Request(now - 2000, "Packaged Meals", "15", "kg", "medium",
              "Food Bank, 200 Charity Lane",
              FamiliesPurpose,
              "completed", fiveDaysAgo, "Food Seeker"),
      Request(now - 3000, "Canned Goods", "30", "kg", "low",
              "Community Kitchen, 300 Service Road",
              SeniorsPurpose,
              "completed", threeDaysAgo, "Food Seeker"),
      Request(now - 4000, "Bread & Bakery", "10", "kg", "high",
              "Youth Center, 400 Kids Avenue",
              ChildrenPurpose,
              "approved", oneDayAgo, "Food Seeker")
    ];
    r
  }

  const DonationClaimedText := "Your Fresh Vegetables donation has been claimed by Hope Community Center."
  const ImpactUpdateText := "Your donations have helped feed 120 people this month!"
  const ThankYouText := "City Food Bank sent you a thank you note for your generous donation."
  const ExpiringSoonText := "Your Dairy Products donation expires in 2 days. Consider updating the listing."
  const RequestApprovedText := "Your request for Bread & Bakery has been approved. Pickup details sent."
  const NewDonationsText := "3 new food donations matching your needs are now available."
  const DonorMessageText := "Green Grocery Store wants to coordinate pickup time with you."
  const ImpactReportText := "You've helped distribute food to 200+ people this month!"

  /** `getDefaultDonorNotifications()`: the two newest are unread, the two oldest read. */
  function DefaultDonorNotifications(now: int): (r: seq<Notification>)
    ensures |r| == 4
    ensures !r[0].read && !r[1].read && r[2].read && r[3].read
    ensures forall i :: 0 <= i < |r| ==> r[i].id == now - 1000 * (i + 1)
    ensures forall i, j :: 0 <= i < j < |r| ==> r[j].timestamp < r[i].timestamp < now
  {
    var r := [ Notification(now - 1000, "success", "Donation Claimed!",
                   DonationClaimedText,
                   now - 2 * MsPerHour, false),
      Notification(now - 2000, "info", "Impact Update",
                   ImpactUpdateText,
                   now - 5 * MsPerHour, false),
      Notification(now - 3000, "message", "Thank You Message",
                   ThankYouText,
                   now - 24 * MsPerHour, true),
      Notification(now - 4000, "warning", "Expiring Soon",
                   ExpiringSoonText,
                   now - 36 * MsPerHour, true)
    ];
    r
  }

  /** `getDefaultSeekerNotifications()`: the two newest are unread, the two oldest read. */
  function DefaultSeekerNotifications(now: int): (r: seq<Notification>)
    ensures |r| == 4
    ensures !r[0].read && !r[1].read && r[2].read && r[3].read
    ensures forall i :: 0 <= i < |r| ==> r[i].id == now - 1000 * (i + 1)
    ensures forall i, j :: 0 <= i < j < |r| ==> r[j].timestamp < r[i].timestamp < now
  {
    var r := [ Notification(now - 1000, "success", "Request Approved!",
                   RequestApprovedText,
                   now - 1 * MsPerHour, false),
      Notification(now - 2000, "info", "New Donations Available",
                   NewDonationsText,
                   now - 4 * MsPerHour, false),
      Notification(now - 3000, "message", "Donor Message",
                   DonorMessageText,
                   now - 12 * MsPerHour, true),
      Notification(now - 4000, "success", "Impact Report",
                   ImpactReportText,
                   now - 48 * MsPerHour, true)
    ];
    r
  }

  const HopeCenter := "Hope Community Center"
  const HopeThanksSubject := "Thank you for your donation!"
  const HopeThanksPreview := "We received your vegetables donation and distributed it to 40 families..."
  const ImpactReportSubject := "Your Impact Report - October 2025"
  const ImpactReportPreview := "Here's a summary of your contributions this month..."
  const PickupScheduledSubject := "Donation Pickup Scheduled"
  const PickupScheduledPreview := "Your bread donation pickup has been scheduled for tomorrow..."
  const GreenGrocery := "Green Grocery Store"
  const GreenGrocerySubject := "Donation Available - Pickup Coordination"
  const GreenGroceryPreview := "We have fresh produce available. Can we coordinate pickup time?..."
  const RequestApprovedSubject := "Your Request Has Been Approved"
  const RequestApprovedPreview := "Good news! Your food request for Bread & Bakery has been approved..."
  const DistributionTipsSubject := "Tips for Effective Food Distribution"
  const DistributionTipsPreview := "Here are some best practices for managing food donations..."

  const HopeThanksBody := @"Dear Donor,

We wanted to express our heartfelt gratitude for your generous donation of fresh vegetables. Your contribution has made a significant impact on our community.

The 15kg of vegetables you donated were distributed to 40 families in need, providing them with nutritious meals for several days. Many of these families struggle with food insecurity, and your donation has brought them much-needed relief.

We would love to partner with you for future donations. Please let us know if you have any questions or would like to schedule regular pickups.

Thank you again for your kindness and generosity!

Best regards,
Hope Community Center Team"
  const ImpactReportBody := ImpactReportOpening + ImpactReportTotals + ImpactReportClosing
  const ImpactReportOpening := @"Hello Food Donor,

Thank you for being an active member of our Food Waste Reduction Platform!

Here's your impact summary for October 2025:
"
  /** The report's lines quoting the donor's totals. */
  const ImpactReportTotals := "- Total Donations: " + "5" + "\n- Total Weight: " + "90"
    + " kg\n- People Helped: " + "360" + "\n- CO\U{2082} Saved: " + "225" + " kg"
  const ImpactReportClosing := @"

Your contributions are making a real difference in fighting food waste and hunger. Keep up the amazing work!

If you have any questions or suggestions, please don't hesitate to reach out.

Best regards,
Platform Admin Team"
  const PickupScheduledBody := @"Hi there,

This is a confirmation that your donation pickup has been scheduled:

Donation: Bread & Bakery Items
Quantity: 8 kg
Pickup Time: Tomorrow, 10:00 AM
Pickup Location: City Bakery, 456 Oak Avenue

The recipient organization will arrive at the scheduled time. Please ensure the items are ready for pickup.

Thank you for your contribution!

Best,
Food Waste Platform"
  const GreenGroceryBody := @"Hello,

We have 20kg of fresh vegetables available for donation. The items include:
- Carrots: 8kg
- Tomatoes: 7kg
- Lettuce: 5kg

These are slightly imperfect but perfectly edible and nutritious. They need to be picked up within the next 2 days.

Could you please confirm your availability for pickup? We're open Monday-Friday, 9 AM - 6 PM, and Saturday 9 AM - 2 PM.

Looking forward to working with you!

Best regards,
Green Grocery Store"
  const RequestApprovedBody := @"Dear Food Seeker,

Great news! Your request for Bread & Bakery items has been approved.

Request Details:
- Food Type: Bread & Bakery
- Quantity: 10 kg
- Purpose: After-school snack program

Donor Information:
- Name: City Bakery
- Location: 456 Oak Avenue
- Contact: Available in your dashboard

Please coordinate with the donor for pickup arrangements. Make sure to bring appropriate containers and transportation.

Thank you for using our platform to help those in need!

Best regards,
Platform Admin"
  const DistributionTipsBody := @"Hello,

We wanted to share some tips to help you maximize the impact of your food distribution efforts:

1. Food Safety First
   - Always check expiry dates
   - Maintain proper storage temperatures
   - Use clean containers for transport

2. Efficient Distribution
   - Plan routes to minimize travel time
   - Coordinate with multiple donors for bulk pickups
   - Keep accurate records of distributions

3. Community Engagement
   - Share impact stories with donors
   - Provide feedback on food quality
   - Build long-term relationships

4. Documentation
   - Take photos of distributions
   - Track number of people served
   - Report any issues promptly

If you need any assistance or have questions, our support team is here to help!

Best regards,
Support Team"

  /** `getDefaultDonorMessages()`: the two newest are unread, the oldest is read. */
  function DefaultDonorMessages(now: int): (r: seq<Message>)
    ensures |r| == 3
    ensures !r[0].read && !r[1].read && r[2].read
    ensures forall i :: 0 <= i < |r| ==> r[i].id == now - 1000 * (i + 1)
    ensures forall i, j :: 0 <= i < j < |r| ==> r[j].timestamp < r[i].timestamp < now
  {
    var r := [ Message(now - 1000, HopeCenter, HopeThanksSubject,
              HopeThanksPreview,
              HopeThanksBody, now - 3 * MsPerHour, false),
      Message(now - 2000, "Admin", ImpactReportSubject,
              ImpactReportPreview,
              ImpactReportBody, now - 24 * MsPerHour, false),
      Message(now - 3000, "System", PickupScheduledSubject,
              PickupScheduledPreview,
              PickupScheduledBody, now - 48 * MsPerHour, true)
    ];
    r
  }

  /** `getDefaultSeekerMessages()`: the two newest are unread, the oldest is read. */
  function DefaultSeekerMessages(now: int): (r: seq<Message>)
    ensures |r| == 3
    ensures !r[0].read && !r[1].read && r[2].read
    ensures forall i :: 0 <= i < |r| ==> r[i].id == now - 1000 * (i + 1)
    ensures forall i, j :: 0 <= i < j < |r| ==> r[j].timestamp < r[i].timestamp < now
  {
    var r := [ Message(now - 1000, GreenGrocery, GreenGrocerySubject,
              GreenGroceryPreview,
              GreenGroceryBody, now - 2 * MsPerHour, false),
      Message(now - 2000, "Admin", RequestApprovedSubject,
              RequestApprovedPreview,
              RequestApprovedBody, now - 6 * MsPerHour, false),
      Message(now - 3000, "Support", DistributionTipsSubject,
              DistributionTipsPreview,
              DistributionTipsBody, now - 72 * MsPerHour, true)
    ];
    r
  }
}
