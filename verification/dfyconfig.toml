includes = ["**/*.dfy"]

[options]
verification-time-limit = 0
resource-limit = 2000000
